/** Crash atomicity told by the steps of a run and by the disk alone: what recovery yields is what
    the last durable log_write of each block was given. */
module LogRuns {
  import opened RedoLog
  import opened LogFile
  import opened LogMachine
  import opened LogAtomicity

  // ---------------------------------------------------------------- steps

  predicate Fits(ss: seq<State>, sts: seq<Step>) {
    |ss| == |sts| + 1
  }

  /** Step j is a log_write of block b that does not panic. */
  predicate Logs(ss: seq<State>, sts: seq<Step>, j: nat, b: nat)
    requires Fits(ss, sts) && j < |sts|
  {
    sts[j].LogWrite? && sts[j].b == b && !ss[j + 1].panicked
  }

  /** When step n is to come, the header has block b: it has been logged since the last commit ended
      and since the last crash. */
  ghost predicate InHeader(ss: seq<State>, sts: seq<Step>, n: nat, b: nat)
    requires Fits(ss, sts) && n <= |sts|
  {
    exists j :: 0 <= j < n && Logs(ss, sts, j, b) && forall m :: j < m < n ==> !sts[m].CommitDone? && !sts[m].Crash?
  }

  /** Step j is an update of block b: a log_write, or a store while the header has the block. */
  ghost predicate Update(ss: seq<State>, sts: seq<Step>, j: nat, b: nat)
    requires Fits(ss, sts) && j < |sts|
  {
    Logs(ss, sts, j, b) || (sts[j].Store? && sts[j].b == b && InHeader(ss, sts, j, b))
  }

  /** Step i writes a header that is not empty over one that is. */
  predicate CommitPoint(c: Setting, ss: seq<State>, sts: seq<Step>, i: nat)
    requires Fits(ss, sts) && i < |sts|
  {
    sts[i].DiskWrite? && Clean(ss[i].disk, c.a) && !Clean(ss[i + 1].disk, c.a)
  }

  predicate NoCrash(sts: seq<Step>, j: nat, n: nat)
    requires n <= |sts|
  {
    forall m :: j < m < n ==> !sts[m].Crash?
  }

  /** Before step n, what happened at step j has been committed: no crash came between. */
  ghost predicate Kept(c: Setting, ss: seq<State>, sts: seq<Step>, j: nat, n: nat)
    requires Fits(ss, sts) && n <= |sts|
  {
    exists i :: j < i < n && CommitPoint(c, ss, sts, i) && NoCrash(sts, j, i)
  }

  /** A crash came first. */
  ghost predicate Dropped(c: Setting, ss: seq<State>, sts: seq<Step>, j: nat, n: nat)
    requires Fits(ss, sts) && n <= |sts|
  {
    exists m :: j < m < n && sts[m].Crash? && forall i :: j < i < m ==> !CommitPoint(c, ss, sts, i)
  }

  // ---------------------------------------------------------------- the header on the disk

  /** The header becomes non-empty at the commit point and at no other step. */
  lemma HeaderStep(c: Setting, s: State, st: Step)
    requires Inv(c, s) && Enabled(c, s, st)
    ensures Clean(s.disk, c.a) && !Clean(Do(c, s, st).disk, c.a) <==> HeaderWrite(s, st)
  {
    hide Durable, Current, Replay, Recovered;
    if st.DiskWrite? {
      DiskStep(c, s);
    }
  }

  lemma DiskStep(c: Setting, s: State)
    requires Inv(c, s) && Enabled(c, s, DiskWrite)
    ensures Clean(s.disk, c.a) && !Clean(Do(c, s, DiskWrite).disk, c.a) <==> s.phase.Committing? && s.phase.k == |s.bs|
  {
    hide Durable, Replay, Recovered, Current;
    var k, ws := s.phase.k, Writes(c, s);
    if s.phase.Committing? {
      CommitTarget(c, s, k);
      if k == |s.bs| {
        forall i | 0 <= i < k
          ensures ws[..k][i].b != c.a.start
        {
          CommitTarget(c, s, i);
        }
        ApplyOther(s.phase.d0, ws[..k], c.a.start);
      }
    } else {
      RecoverTarget(c, s, k);
    }
  }

  /** Which commit writes touch the header block. */
  lemma CommitTarget(c: Setting, s: State, i: nat)
    requires Inv(c, s) && s.phase.Committing? && i < |Writes(c, s)|
    ensures s.bs != []
    ensures var w := Writes(c, s)[i];
      && (i == |s.bs| ==> w.b == c.a.start && w.v.Header? && w.v.n == |s.bs|)
      && (i == 2 * |s.bs| + 1 ==> w.b == c.a.start && w.v.Header? && w.v.n == 0)
      && (i != |s.bs| && i != 2 * |s.bs| + 1 ==> w.b != c.a.start)
  {
    hide Durable, Replay, Recovered;
    var bs := s.bs;
    assert c.a.Has(c.a.start);
    if |bs| < i < 2 * |bs| + 1 {
      assert Writes(c, s)[i].b == bs[i - |bs| - 1];
    }
  }

  lemma RecoverTarget(c: Setting, s: State, i: nat)
    requires Inv(c, s) && s.phase.Recovering? && i < |Writes(c, s)|
    ensures var w := Writes(c, s)[i];
      w.b != c.a.start || (w.v.Header? && w.v.n == 0)
  {
    hide Durable, Replay, Recovered;
    assert c.a.Has(c.a.start);
  }

  // ---------------------------------------------------------------- the machine's history is that of the steps

  /** The header that the machine has is the one of the steps. */
  ghost predicate HeaderTold(ss: seq<State>, sts: seq<Step>, n: nat)
    requires Fits(ss, sts) && n <= |sts|
  {
    forall b :: b in ss[n].bs <==> InHeader(ss, sts, n, b)
  }

  lemma InHeaderNext(ss: seq<State>, sts: seq<Step>, n: nat, b: nat)
    requires Fits(ss, sts) && n < |sts|
    ensures InHeader(ss, sts, n + 1, b) <==>
      Logs(ss, sts, n, b) || (InHeader(ss, sts, n, b) && !sts[n].CommitDone? && !sts[n].Crash?)
  {
    hide Logs;
    if InHeader(ss, sts, n, b) && !sts[n].CommitDone? && !sts[n].Crash? {
      var j :| 0 <= j < n && Logs(ss, sts, j, b) && forall m :: j < m < n ==> !sts[m].CommitDone? && !sts[m].Crash?;
      assert forall m :: j < m < n + 1 ==> !sts[m].CommitDone? && !sts[m].Crash?;
    }
  }

  /** What a step does to the header. */
  lemma HeaderNext(c: Setting, s: State, st: Step, b: nat)
    requires TypeOk(c, s) && Enabled(c, s, st)
    ensures var s' := Do(c, s, st);
      b in s'.bs <==> (st.LogWrite? && st.b == b && !s'.panicked) || (b in s.bs && !st.CommitDone? && !st.Crash?)
  {
    hide TypeOk, Writes;
  }

  lemma {:induction false} HeaderIsTold(c: Setting, ss: seq<State>, sts: seq<Step>, n: nat)
    requires IsRun(c, ss, sts) && n <= |sts|
    ensures HeaderTold(ss, sts, n)
  {
    hide Init, InHeader, TypeOk, Enabled, Do;
    if n == 0 {
      NoneTold(c, ss, sts);
    } else {
      HeaderIsTold(c, ss, sts, n - 1);
      assert Goes(c, ss[n - 1], sts[n - 1], ss[n]);
      forall b
        ensures b in ss[n].bs <==> InHeader(ss, sts, n, b)
      {
        InHeaderNext(ss, sts, n - 1, b);
        HeaderNext(c, ss[n - 1], sts[n - 1], b);
      }
    }
  }

  lemma NoneTold(c: Setting, ss: seq<State>, sts: seq<Step>)
    requires Fits(ss, sts) && Init(c, ss[0])
    ensures HeaderTold(ss, sts, 0)
  {
  }

  /** Event e is what step st does to the home blocks. */
  predicate Tells(st: Step, e: Event) {
    || (st.LogWrite? && e == Event(st.op, Write(st.b, st.v), true))
    || (st.Store? && e == Event(st.op, Write(st.b, st.v), false))
  }

  /** ix are the steps whose updates are in the machine's history, in order. Those before the cut are
      committed; no crash has come since the others. */
  ghost predicate Traced(c: Setting, ss: seq<State>, sts: seq<Step>, n: nat, ix: seq<nat>)
    requires Fits(ss, sts) && n <= |sts|
  {
    var s := ss[n];
    && |ix| == |s.hist| && s.cut <= |s.hist|
    && (forall k :: 0 <= k < |ix| ==> ix[k] < n && Tells(sts[ix[k]], s.hist[k]))
    && (forall k, l :: 0 <= k < l < |ix| ==> ix[k] < ix[l])
    && (forall j, b :: 0 <= j < n && Update(ss, sts, j, b) && !Dropped(c, ss, sts, j, n) ==> j in ix)
    && (forall k :: 0 <= k < |ix| ==> Update(ss, sts, ix[k], s.hist[k].w.b))
    && (forall k :: 0 <= k < s.cut ==> Kept(c, ss, sts, ix[k], n))
    && (forall k :: s.cut <= k < |ix| ==> !Kept(c, ss, sts, ix[k], n) && NoCrash(sts, ix[k], n))
  }

  lemma KeptNext(c: Setting, ss: seq<State>, sts: seq<Step>, j: nat, n: nat)
    requires Fits(ss, sts) && n < |sts| && j < n
    ensures Kept(c, ss, sts, j, n) ==> Kept(c, ss, sts, j, n + 1)
    ensures !CommitPoint(c, ss, sts, n) ==> (Kept(c, ss, sts, j, n + 1) <==> Kept(c, ss, sts, j, n))
    ensures CommitPoint(c, ss, sts, n) && NoCrash(sts, j, n) ==> Kept(c, ss, sts, j, n + 1)
    ensures !Kept(c, ss, sts, j, n) && NoCrash(sts, j, n) ==> forall i :: j < i < n ==> !CommitPoint(c, ss, sts, i)
  {
    hide CommitPoint;
  }

  lemma DroppedNext(c: Setting, ss: seq<State>, sts: seq<Step>, j: nat, n: nat)
    requires Fits(ss, sts) && n < |sts| && j < n
    ensures Dropped(c, ss, sts, j, n) ==> Dropped(c, ss, sts, j, n + 1)
    ensures sts[n].Crash? && (forall i :: j < i < n ==> !CommitPoint(c, ss, sts, i)) ==> Dropped(c, ss, sts, j, n + 1)
    ensures Kept(c, ss, sts, j, n) ==> !Dropped(c, ss, sts, j, n)
  {
  }

  /** What a step does to the machine's history. */
  lemma HistNext(c: Setting, s: State, st: Step)
    requires TypeOk(c, s) && Enabled(c, s, st)
    ensures var s' := Do(c, s, st);
      && s.cut <= |s.hist|
      && s'.cut == (if HeaderWrite(s, st) then |s.hist| else s.cut)
      && (if (st.LogWrite? && !s'.panicked) || (st.Store? && st.b in s.bs) then
            |s'.hist| == |s.hist| + 1 && s'.hist[..|s.hist|] == s.hist && Tells(st, s'.hist[|s.hist|])
          else if st.Crash? then s'.hist == s.hist[..s.cut]
          else s'.hist == s.hist)
  {
    hide Writes, LogOk;
  }

  lemma TraceUpdate(c: Setting, ss: seq<State>, sts: seq<Step>, n: nat, ix: seq<nat>, b: nat)
    requires Fits(ss, sts) && n < |sts| && Traced(c, ss, sts, n, ix) && Update(ss, sts, n, b)
    requires var h, h' := ss[n].hist, ss[n + 1].hist;
      |h'| == |h| + 1 && h'[..|h|] == h && Tells(sts[n], h'[|h|]) && ss[n + 1].cut == ss[n].cut
    ensures Traced(c, ss, sts, n + 1, ix + [n])
  {
    hide Update, Kept, Dropped, CommitPoint, NoCrash, Tells;
    var s, s', ix' := ss[n], ss[n + 1], ix + [n];
    assert forall k :: 0 <= k < |s.hist| ==> s'.hist[k] == s'.hist[..|s.hist|][k] == s.hist[k];
    UpdateBlock(ss, sts, n, b);
    NotCommit(c, ss, sts, n);
    forall k | 0 <= k < |ix|
      ensures Kept(c, ss, sts, ix[k], n + 1) <==> Kept(c, ss, sts, ix[k], n)
      ensures NoCrash(sts, ix[k], n) ==> NoCrash(sts, ix[k], n + 1)
    {
      KeptNext(c, ss, sts, ix[k], n);
      NoCrashNext(sts, ix[k], n);
    }
    forall j, b' | 0 <= j < n + 1 && Update(ss, sts, j, b') && !Dropped(c, ss, sts, j, n + 1)
      ensures j in ix'
    {
      if j < n {
        DroppedNext(c, ss, sts, j, n);
      }
    }
    NotKept(c, ss, sts, n);
    NoCrashNext(sts, n, n);
    TellsBlock(sts[n], s'.hist[|s.hist|]);
  }

  lemma TellsBlock(st: Step, e: Event)
    requires Tells(st, e)
    ensures (st.LogWrite? || st.Store?) && e.w.b == st.b
  {
  }

  lemma NoCrashNext(sts: seq<Step>, j: nat, n: nat)
    requires j <= n < |sts| && !sts[n].Crash?
    ensures NoCrash(sts, j, n) ==> NoCrash(sts, j, n + 1)
    ensures NoCrash(sts, n, n)
  {
  }

  lemma NotCommit(c: Setting, ss: seq<State>, sts: seq<Step>, n: nat)
    requires Fits(ss, sts) && n < |sts| && !sts[n].DiskWrite?
    ensures !CommitPoint(c, ss, sts, n)
  {
  }

  lemma NotKept(c: Setting, ss: seq<State>, sts: seq<Step>, n: nat)
    requires Fits(ss, sts) && n < |sts|
    ensures !Kept(c, ss, sts, n, n + 1)
  {
  }

  lemma UpdateBlock(ss: seq<State>, sts: seq<Step>, n: nat, b: nat)
    requires Fits(ss, sts) && n < |sts| && Update(ss, sts, n, b)
    ensures (sts[n].LogWrite? || sts[n].Store?) && sts[n].b == b
  {
  }

  lemma TraceCrash(c: Setting, ss: seq<State>, sts: seq<Step>, n: nat, ix: seq<nat>)
    requires Fits(ss, sts) && n < |sts| && Traced(c, ss, sts, n, ix) && sts[n].Crash?
    requires ss[n].cut <= |ss[n].hist| && ss[n + 1].hist == ss[n].hist[..ss[n].cut] && ss[n + 1].cut == ss[n].cut
    ensures Traced(c, ss, sts, n + 1, ix[..ss[n].cut])
  {
    hide Update, Kept, Dropped, CommitPoint, NoCrash;
    var s, ix' := ss[n], ix[..ss[n].cut];
    forall k | 0 <= k < |ix'|
      ensures Kept(c, ss, sts, ix'[k], n + 1)
    {
      KeptNext(c, ss, sts, ix[k], n);
    }
    forall j, b | 0 <= j < n + 1 && Update(ss, sts, j, b) && !Dropped(c, ss, sts, j, n + 1)
      ensures j in ix'
    {
      if j == n {
        UpdateBlock(ss, sts, n, b);
      } else {
        DroppedNext(c, ss, sts, j, n);
        var k :| 0 <= k < |ix| && ix[k] == j;
        if k >= s.cut {
          KeptNext(c, ss, sts, j, n);
        } else {
          assert ix'[k] == j;
        }
      }
    }
  }

  lemma TraceOther(c: Setting, ss: seq<State>, sts: seq<Step>, n: nat, ix: seq<nat>)
    requires Fits(ss, sts) && n < |sts| && Traced(c, ss, sts, n, ix) && !sts[n].Crash?
    requires forall b :: !Update(ss, sts, n, b)
    requires ss[n].cut <= |ss[n].hist| && ss[n + 1].hist == ss[n].hist
    requires ss[n + 1].cut == if CommitPoint(c, ss, sts, n) then |ss[n].hist| else ss[n].cut
    ensures Traced(c, ss, sts, n + 1, ix)
  {
    hide Update, Kept, Dropped, CommitPoint;
    forall k | 0 <= k < |ix|
      ensures Kept(c, ss, sts, ix[k], n + 1) <==> Kept(c, ss, sts, ix[k], n) || CommitPoint(c, ss, sts, n)
    {
      KeptNext(c, ss, sts, ix[k], n);
    }
    forall j, b | 0 <= j < n + 1 && Update(ss, sts, j, b) && !Dropped(c, ss, sts, j, n + 1)
      ensures j in ix
    {
      if j < n {
        DroppedNext(c, ss, sts, j, n);
      }
    }
  }

  lemma TraceStep(c: Setting, ss: seq<State>, sts: seq<Step>, n: nat, ix: seq<nat>) returns (ix': seq<nat>)
    requires IsRun(c, ss, sts) && n < |sts| && Traced(c, ss, sts, n, ix)
    ensures Traced(c, ss, sts, n + 1, ix')
  {
    hide Init, Traced, TypeOk, Enabled, Do, Inv, Clean, HeaderWrite, InHeader, Tells;
    var s, st := ss[n], sts[n];
    assert Goes(c, s, st, ss[n + 1]);
    InvAt(c, ss, sts, n);
    HistNext(c, s, st);
    HeaderStep(c, s, st);
    HeaderIsTold(c, ss, sts, n);
    HeaderIsDisk(s, st);
    if (st.LogWrite? && !ss[n + 1].panicked) || (st.Store? && st.b in s.bs) {
      assert Update(ss, sts, n, st.b);
      TraceUpdate(c, ss, sts, n, ix, st.b);
      ix' := ix + [n];
    } else if st.Crash? {
      TraceCrash(c, ss, sts, n, ix);
      TracedLength(c, ss, sts, n, ix);
      ix' := ix[..s.cut];
    } else {
      TraceOther(c, ss, sts, n, ix);
      ix' := ix;
    }
  }

  lemma {:induction false} Trace(c: Setting, ss: seq<State>, sts: seq<Step>, n: nat) returns (ix: seq<nat>)
    requires IsRun(c, ss, sts) && n <= |sts|
    ensures Traced(c, ss, sts, n, ix)
  {
    hide Traced, Goes, Init;
    if n == 0 {
      TraceNone(c, ss, sts);
      ix := [];
    } else {
      ix := Trace(c, ss, sts, n - 1);
      ix := TraceStep(c, ss, sts, n - 1, ix);
    }
  }

  lemma TracedLength(c: Setting, ss: seq<State>, sts: seq<Step>, n: nat, ix: seq<nat>)
    requires Fits(ss, sts) && n <= |sts| && Traced(c, ss, sts, n, ix)
    ensures |ix| == |ss[n].hist|
  {
  }

  lemma TraceNone(c: Setting, ss: seq<State>, sts: seq<Step>)
    requires Fits(ss, sts) && Init(c, ss[0])
    ensures Traced(c, ss, sts, 0, [])
  {
  }

  lemma HeaderIsDisk(s: State, st: Step)
    ensures HeaderWrite(s, st) ==> st.DiskWrite?
  {
  }

  // ---------------------------------------------------------------- what recovery yields

  /** Before step n, step j is the last committed update of block b. */
  ghost predicate LastKept(c: Setting, ss: seq<State>, sts: seq<Step>, n: nat, b: nat, j: nat)
    requires Fits(ss, sts) && n <= |sts|
  {
    && j < n && Update(ss, sts, j, b) && Kept(c, ss, sts, j, n)
    && forall i :: j < i < n && Update(ss, sts, i, b) ==> !Kept(c, ss, sts, i, n)
  }

  /** At every moment of every run, recovery gives each home block what its last committed update was
      given, or what it was at the start if it has none. */
  lemma RecoveryYields(c: Setting, ss: seq<State>, sts: seq<Step>, n: nat, b: nat)
    requires IsRun(c, ss, sts) && n <= |sts| && !c.a.Has(b)
    ensures LogOk(ss[n].disk, c.a)
    ensures var e := Recovered(ss[n].disk, c.a);
      || (exists j: nat :: LastKept(c, ss, sts, n, b, j) && b in e && e[b] == sts[j].v)
      || ((forall j :: 0 <= j < n && Update(ss, sts, j, b) ==> !Kept(c, ss, sts, j, n))
          && (b in e <==> b in c.h0) && (b in e ==> e[b] == c.h0[b]))
  {
    hide Goes, Init, Inv, Replay, Recovered, LogOk;
    var ix := Trace(c, ss, sts, n);
    InvAt(c, ss, sts, n);
    DurableAt(c, ss[n]);
    YieldsLast(c, ss, sts, n, ix, b);
  }

  lemma DurableAt(c: Setting, s: State)
    requires Inv(c, s)
    ensures LogOk(s.disk, c.a) && s.cut <= |s.hist| && SameHome(Recovered(s.disk, c.a), Replay(c, s.hist[..s.cut]), c.a)
  {
    hide LogOk, Recovered, Replay, SameHome;
  }

  lemma YieldsLast(c: Setting, ss: seq<State>, sts: seq<Step>, n: nat, ix: seq<nat>, b: nat)
    requires Fits(ss, sts) && n <= |sts| && Traced(c, ss, sts, n, ix)
    ensures var d := Replay(c, ss[n].hist[..ss[n].cut]);
      || (exists j: nat :: LastKept(c, ss, sts, n, b, j) && b in d && d[b] == sts[j].v)
      || ((forall j :: 0 <= j < n && Update(ss, sts, j, b) ==> !Kept(c, ss, sts, j, n))
          && (b in d <==> b in c.h0) && (b in d ==> d[b] == c.h0[b]))
  {
    hide Replay, Kept, Update, Dropped, LastOn;
    var s := ss[n];
    var h := s.hist[..s.cut];
    ReplayLast(c, h, b);
    var k := LastOn(h, b);
    forall j | 0 <= j < n && Update(ss, sts, j, b) && Kept(c, ss, sts, j, n)
      ensures exists l :: 0 <= l < s.cut && ix[l] == j && h[l].w.b == b && l <= k
    {
      assert !Dropped(c, ss, sts, j, n) by { KeptNotDropped(c, ss, sts, j, n); }
      var l :| 0 <= l < |ix| && ix[l] == j;
      UpdateBlock(ss, sts, j, b);
      assert l < s.cut;
      assert h[l] == s.hist[l] && Tells(sts[j], h[l]);
    }
    if k >= 0 {
      assert h[k] == s.hist[k];
      var j := ix[k];
      assert LastKept(c, ss, sts, n, b, j);
    }
  }

  lemma KeptNotDropped(c: Setting, ss: seq<State>, sts: seq<Step>, j: nat, n: nat)
    requires Fits(ss, sts) && n <= |sts| && Kept(c, ss, sts, j, n)
    ensures !Dropped(c, ss, sts, j, n)
  {
  }

  /** When a commit ends, every update since the last crash is committed. */
  lemma CommitKeeps(c: Setting, ss: seq<State>, sts: seq<Step>, i: nat, j: nat, b: nat)
    requires IsRun(c, ss, sts) && j < i < |sts| && sts[i].CommitDone? && Update(ss, sts, j, b) && NoCrash(sts, j, i)
    ensures Kept(c, ss, sts, j, i)
  {
    hide Goes, Init, Update, Kept, CommitPoint;
    var ix := Trace(c, ss, sts, i);
    CommittedDurable(c, ss, sts, i, i);
    assert !Dropped(c, ss, sts, j, i);
    var k :| 0 <= k < |ix| && ix[k] == j;
  }

  // ---------------------------------------------------------------- all or nothing

  /** An operation that has begun and is not under way any more has ended, or a crash came: it does not
      come back. */
  lemma GoneStays(c: Setting, s: State, st: Step, op: Op)
    requires TypeOk(c, s) && Enabled(c, s, st) && op in s.used && op !in s.ops
    ensures var s' := Do(c, s, st); op in s'.used && op !in s'.ops
  {
    hide TypeOk, Writes;
  }

  lemma {:induction false} Lives(c: Setting, ss: seq<State>, sts: seq<Step>, op: Op, m: nat, n: nat)
    requires IsRun(c, ss, sts) && m <= n < |ss| && op in ss[n].ops && op in ss[m].used
    ensures op in ss[m].ops
    decreases n - m
  {
    hide Init, TypeOk, Enabled, Do;
    if m < n && op !in ss[m].ops {
      assert Goes(c, ss[m], sts[m], ss[m + 1]);
      GoneStays(c, ss[m], sts[m], op);
      Lives(c, ss, sts, op, m + 1, n);
    }
  }

  /** Between two steps of an operation nothing crashes and nothing is committed. */
  lemma Undisturbed(c: Setting, ss: seq<State>, sts: seq<Step>, j: nat, j': nat)
    requires IsRun(c, ss, sts) && j < j' < |sts|
    requires (sts[j].LogWrite? || sts[j].Store?) && (sts[j'].LogWrite? || sts[j'].Store?) && sts[j].op == sts[j'].op
    ensures forall m :: j < m < j' ==> !sts[m].Crash? && !CommitPoint(c, ss, sts, m)
  {
    hide Init, TypeOk, Do, Inv, Enabled, CommitPoint;
    var op := sts[j].op;
    assert Goes(c, ss[j], sts[j], ss[j + 1]) && Goes(c, ss[j'], sts[j'], ss[j' + 1]);
    Under(c, ss[j], sts[j]);
    Under(c, ss[j'], sts[j']);
    InvAt(c, ss, sts, j);
    UsedOps(c, ss[j], op);
    forall m | j < m < j'
      ensures !sts[m].Crash? && !CommitPoint(c, ss, sts, m)
    {
      UsedStays(c, ss, sts, op, j, m);
      UsedStays(c, ss, sts, op, j, m + 1);
      Lives(c, ss, sts, op, m, j');
      Lives(c, ss, sts, op, m + 1, j');
      assert Goes(c, ss[m], sts[m], ss[m + 1]);
      InvAt(c, ss, sts, m);
      QuietStep(c, ss, sts, m, op);
    }
  }

  lemma Under(c: Setting, s: State, st: Step)
    requires TypeOk(c, s) && Enabled(c, s, st) && (st.LogWrite? || st.Store?)
    ensures st.op in s.ops
  {
  }

  lemma UsedOps(c: Setting, s: State, op: Op)
    requires Inv(c, s) && op in s.ops
    ensures op in s.used
  {
  }

  lemma {:induction false} UsedStays(c: Setting, ss: seq<State>, sts: seq<Step>, op: Op, i: nat, m: nat)
    requires IsRun(c, ss, sts) && i <= m < |ss| && op in ss[i].used
    ensures op in ss[m].used
    decreases m - i
  {
    hide Init, TypeOk, Enabled, Do;
    if i < m {
      UsedStays(c, ss, sts, op, i, m - 1);
      assert Goes(c, ss[m - 1], sts[m - 1], ss[m]);
      UsedGrows(c, ss[m - 1], sts[m - 1]);
    }
  }

  lemma UsedGrows(c: Setting, s: State, st: Step)
    requires TypeOk(c, s) && Enabled(c, s, st)
    ensures s.used <= Do(c, s, st).used
  {
    hide TypeOk, Writes;
  }

  lemma QuietStep(c: Setting, ss: seq<State>, sts: seq<Step>, m: nat, op: Op)
    requires Fits(ss, sts) && m < |sts| && Goes(c, ss[m], sts[m], ss[m + 1]) && Inv(c, ss[m])
    requires op in ss[m].ops && op in ss[m + 1].ops
    ensures !sts[m].Crash? && !CommitPoint(c, ss, sts, m)
  {
    HeaderStep(c, ss[m], sts[m]);
    hide Writes, LogOk, Clean, Durable;
  }

  /** If one update of an operation is committed, all its updates are, in every run and at every
      moment. */
  lemma WholeOperations(c: Setting, ss: seq<State>, sts: seq<Step>, n: nat, j: nat, j': nat)
    requires IsRun(c, ss, sts) && n <= |sts| && j < n && j' < n && Kept(c, ss, sts, j, n)
    requires (sts[j].LogWrite? || sts[j].Store?) && (sts[j'].LogWrite? || sts[j'].Store?) && sts[j].op == sts[j'].op
    ensures Kept(c, ss, sts, j', n)
  {
    hide Goes, Init, CommitPoint;
    var i :| j < i < n && CommitPoint(c, ss, sts, i) && NoCrash(sts, j, i);
    if j < j' {
      Undisturbed(c, ss, sts, j, j');
      assert i != j' by { CommitIsWrite(c, ss, sts, i); }
    } else if j' < j {
      Undisturbed(c, ss, sts, j', j);
    }
    assert NoCrash(sts, j', i);
  }

  lemma CommitIsWrite(c: Setting, ss: seq<State>, sts: seq<Step>, i: nat)
    requires Fits(ss, sts) && i < |sts| && CommitPoint(c, ss, sts, i)
    ensures sts[i].DiskWrite?
  {
  }

  // ---------------------------------------------------------------- what bread shows

  /** Step st sets the view of block b. */
  predicate Touches(st: Step, b: nat) {
    (st.LogWrite? && st.b == b) || (st.Store? && st.b == b) || (st.Recycle? && st.b == b) || st.RecoverDone?
  }

  lemma ViewNext(c: Setting, s: State, st: Step, b: nat)
    requires TypeOk(c, s) && Enabled(c, s, st) && !Do(c, s, st).panicked
    ensures var s' := Do(c, s, st);
      && (!Touches(st, b) ==> (b in s'.view <==> b in s.view) && (b in s.view ==> s'.view[b] == s.view[b]))
      && (Touches(st, b) && (st.LogWrite? || st.Store?) ==> b in s'.view && s'.view[b] == st.v)
      && (Touches(st, b) && (st.Recycle? || st.RecoverDone?) ==>
            (b in s'.view <==> b in s.disk) && (b in s.disk ==> s'.view[b] == s.disk[b]))
  {
    hide TypeOk, Writes;
  }

  /** bread returns what the last log_write or store of the block was given, or, after a recycling or
      a recovery, what the disk had then. */
  lemma {:induction false} ViewShows(c: Setting, ss: seq<State>, sts: seq<Step>, j: nat, n: nat, b: nat)
    requires IsRun(c, ss, sts) && j < n <= |sts| && Touches(sts[j], b) && !ss[n].panicked
    requires forall m :: j < m < n ==> !Touches(sts[m], b)
    ensures if sts[j].LogWrite? || sts[j].Store? then b in ss[n].view && ss[n].view[b] == sts[j].v
      else (b in ss[n].view <==> b in ss[j].disk) && (b in ss[n].view ==> ss[n].view[b] == ss[j].disk[b])
    decreases n - j
  {
    hide Init, TypeOk, Enabled, Do, Touches;
    assert Goes(c, ss[n - 1], sts[n - 1], ss[n]);
    ViewNext(c, ss[n - 1], sts[n - 1], b);
    if n > j + 1 {
      NotPanicked(c, ss[n - 1], sts[n - 1]);
      ViewShows(c, ss, sts, j, n - 1, b);
    } else {
      TouchKinds(sts[j], b);
    }
  }

  lemma NotPanicked(c: Setting, s: State, st: Step)
    requires TypeOk(c, s) && Enabled(c, s, st)
    ensures !s.panicked
  {
  }

  lemma TouchKinds(st: Step, b: nat)
    requires Touches(st, b)
    ensures st.LogWrite? || st.Store? || st.Recycle? || st.RecoverDone?
  {
  }
}
