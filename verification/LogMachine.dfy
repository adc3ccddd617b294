/** Any number of file-system operations over the redo log, interleaved, with a crash possible
    between any two disk writes, including those of a commit and of a recovery.

    The state has the disk, the logical contents `view` of the home blocks (what bread returns),
    the in-memory header `bs`, and the operations between begin_op and end_op with the blocks
    that each has logged.

    An operation can also store into a block and release it without log_write, as writei does when
    the user's memory faults. If the block is in the header, commit saves what was stored all the
    same. If it is not, the block is `stray`: its buffer differs from the disk, and bread returns
    the disk's contents again once the buffer is recycled.

    For the statements the state also records the history `hist` of all updates that commit will
    save, logged or not, and how much of it, `cut`, is durable. */
module LogMachine {
  import opened RedoLog
  import opened LogFile
  import opened Params

  type Op = nat

  /** Which disk writes are under way: the k first ones have been made, starting from disk d0. */
  datatype Phase = Idle | Committing(d0: Disk, k: nat) | Recovering(d0: Disk, k: nat)

  datatype Event = Event(op: Op, w: Write, logged: bool)

  datatype State = State(disk: Disk, view: Disk, bs: seq<nat>, ops: map<Op, set<nat>>, asleep: set<Op>,
                         used: set<Op>, phase: Phase, hist: seq<Event>, cut: nat, stray: set<nat>, panicked: bool)

  /** The fixed surroundings: the log area, the home blocks at the start, and the number of
      distinct blocks that one operation may log. */
  datatype Setting = Setting(a: Area, h0: Disk, limit: nat)

  datatype Step =
    | Begin(op: Op)
    | LogWrite(op: Op, b: nat, v: Block)
    | Store(op: Op, b: nat, v: Block)
    | Recycle(b: nat)
    | End(op: Op)
    | DiskWrite
    | CommitDone
    | Crash
    | RecoverDone

  function Updates(h: seq<Event>): (ws: seq<Write>)
    ensures |ws| == |h|
  {
    seq(|h|, i requires 0 <= i < |h| => h[i].w)
  }

  /** The home blocks after the updates of h. */
  function Replay(c: Setting, h: seq<Event>): Disk {
    Apply(c.h0, Updates(h))
  }

  ghost function Contents(view: Disk, bs: seq<nat>): (vals: seq<Block>)
    requires forall i :: 0 <= i < |bs| ==> bs[i] in view
    ensures |vals| == |bs|
  {
    seq(|bs|, i requires 0 <= i < |bs| => view[bs[i]])
  }

  /** The disk writes of the current phase. */
  ghost function Writes(c: Setting, s: State): seq<Write>
    requires TypeOk(c, s)
  {
    match s.phase
    case Idle => []
    case Committing(d0, _) =>
      if s.bs == [] then [] else CommitWrites(c.a, d0[c.a.start].block, s.bs, Contents(s.view, s.bs))
    case Recovering(d0, _) => RecoverWrites(d0, c.a)
  }

  ghost predicate TypeOk(c: Setting, s: State) {
    && (s.phase.Committing? || s.phase.Recovering? ==> LogOk(s.phase.d0, c.a))
    && (forall i :: 0 <= i < |s.bs| ==> s.bs[i] in s.view)
    && |s.bs| <= LOGSIZE
    && s.cut <= |s.hist|
  }

  ghost predicate Enabled(c: Setting, s: State, st: Step)
    requires TypeOk(c, s)
  {
    && !s.panicked
    && match st
       case Begin(op) => !s.phase.Recovering? && op !in s.used && op !in s.asleep
       case LogWrite(op, b, v) =>
         && !s.phase.Recovering? && op in s.ops && b in s.view && !c.a.Has(b)
         && |s.ops[op] + {b}| <= c.limit
       case Store(op, b, v) => !s.phase.Recovering? && op in s.ops && b in s.view && !c.a.Has(b)
       case Recycle(b) => b in s.stray && b in s.disk
       case End(op) => !s.phase.Recovering? && op in s.ops
       case DiskWrite => !s.phase.Idle? && s.phase.k < |Writes(c, s)|
       case CommitDone => s.phase.Committing? && s.phase.k == |Writes(c, s)|
       case Crash => true
       case RecoverDone => s.phase.Recovering? && s.phase.k == |Writes(c, s)|
  }

  /** Memory is lost, and recovery starts. */
  ghost function Crashed(s: State): State
    requires s.cut <= |s.hist|
  {
    s.(phase := Recovering(s.disk, 0), bs := [], ops := map[], asleep := {}, hist := s.hist[..s.cut], stray := {})
  }

  ghost function Do(c: Setting, s: State, st: Step): State
    requires TypeOk(c, s) && Enabled(c, s, st)
  {
    match st
    case Begin(op) =>
      if MustWait(|s.bs|, |s.ops|, s.phase.Committing?) then s.(asleep := s.asleep + {op})
      else s.(ops := s.ops[op := {}], used := s.used + {op})
    case LogWrite(op, b, v) =>
      if TooBig(|s.bs|, c.a.size) then s.(panicked := true)
      else
        s.(bs := Absorb(s.bs, b), ops := s.ops[op := s.ops[op] + {b}], view := s.view[b := v],
           hist := s.hist + [Event(op, Write(b, v), true)], stray := s.stray - {b})
    case Store(op, b, v) =>
      if b in s.bs then s.(view := s.view[b := v], hist := s.hist + [Event(op, Write(b, v), false)])
      else s.(view := s.view[b := v], stray := s.stray + {b})
    case Recycle(b) => s.(view := s.view[b := s.disk[b]], stray := s.stray - {b})
    case End(op) =>
      var ops := s.ops - {op};
      if s.phase.Committing? then s.(panicked := true)
      else if ops == map[] then s.(ops := ops, phase := Committing(s.disk, 0))
      else s.(ops := ops, asleep := {})
    case DiskWrite =>
      var w := Writes(c, s)[s.phase.k];
      var s' := s.(disk := s.disk[w.b := w.v], phase := s.phase.(k := s.phase.k + 1));
      // The header write is the commit point.
      if s.phase.Committing? && s.phase.k == |s.bs| then s'.(cut := |s.hist|) else s'
    case CommitDone => s.(phase := Idle, bs := [], asleep := {})
    case Crash => Crashed(s)
    case RecoverDone => s.(phase := Idle, view := s.disk)
  }

  // ---------------------------------------------------------------- invariant

  ghost predicate Inv(c: Setting, s: State) {
    && TypeOk(c, s)
    && LogOk(s.disk, c.a)
    && Durable(c, s)
    && PhaseOk(c, s)
    && Whole(s)
    && Sleepers(s)
  }

  /** A crash now, and the recovery after it, yields the updates before the cut and no others. */
  ghost predicate Durable(c: Setting, s: State)
    requires TypeOk(c, s) && LogOk(s.disk, c.a)
  {
    SameHome(Recovered(s.disk, c.a), Replay(c, s.hist[..s.cut]), c.a)
  }

  ghost predicate PhaseOk(c: Setting, s: State)
    requires TypeOk(c, s)
  {
    match s.phase
    case Idle =>
      && Clean(s.disk, c.a) && Current(c, s, s.disk)
      && (s.ops == map[] ==> s.bs == [])
    case Committing(d0, k) =>
      && s.ops == map[]
      && Clean(d0, c.a) && Current(c, s, d0)
      && k <= |Writes(c, s)| && s.disk == Apply(d0, Writes(c, s)[..k])
      && (k <= |s.bs| ==> SameHome(d0, Replay(c, s.hist[..s.cut]), c.a))
      && (k > |s.bs| ==> s.cut == |s.hist|)
      && (s.bs == [] ==> s.cut == |s.hist|)
    case Recovering(d0, k) =>
      && s.ops == map[] && s.asleep == {} && s.bs == [] && s.cut == |s.hist| && s.stray == {}
      && k <= |Writes(c, s)| && s.disk == Apply(d0, Writes(c, s)[..k])
      && SameHome(Recovered(d0, c.a), Replay(c, s.hist), c.a)
  }

  /** The view of the header's blocks, with the disk d for all others, is the replay of the whole
      history; the view differs from d only in the blocks of the header and in stray ones. */
  ghost predicate Current(c: Setting, s: State, d: Disk) {
    && BlocksOk(d, c.a, s.bs)
    && (forall b :: !c.a.Has(b) ==> (b in s.view <==> b in d) && (b in d <==> b in Replay(c, s.hist)))
    && (forall b :: b in s.bs && b in s.view && b in Replay(c, s.hist) ==> s.view[b] == Replay(c, s.hist)[b])
    && (forall b :: !c.a.Has(b) && b !in s.bs && b in d && b in Replay(c, s.hist) ==> d[b] == Replay(c, s.hist)[b])
    && (forall b :: !c.a.Has(b) && b !in s.bs && b !in s.stray && b in d && b in s.view ==> s.view[b] == d[b])
    && (forall b :: b in s.stray ==> !c.a.Has(b) && b !in s.bs && b in d)
    && (s.bs == [] ==> s.cut == |s.hist|)
  }

  /** No operation has updates on both sides of the cut, and those with updates before it have
      ended. */
  ghost predicate Whole(s: State) {
    && s.cut <= |s.hist|
    && (forall i, j :: 0 <= i < s.cut <= j < |s.hist| ==> s.hist[i].op != s.hist[j].op)
    && (forall i :: 0 <= i < s.cut ==> s.hist[i].op !in s.ops)
    && (forall i :: 0 <= i < |s.hist| ==> s.hist[i].op in s.used)
    && (forall op :: op in s.ops ==> op in s.used)
  }

  /** Nobody sleeps in begin_op who could go on. */
  ghost predicate Sleepers(s: State) {
    s.asleep != {} ==> MustWait(|s.bs|, |s.ops|, s.phase.Committing?)
  }

  // ---------------------------------------------------------------- steps

  lemma ReplaySnoc(c: Setting, h: seq<Event>, e: Event)
    ensures Replay(c, h + [e]) == Replay(c, h)[e.w.b := e.w.v]
  {
    assert Updates(h + [e]) == Updates(h) + [e.w];
    ApplyOne(c.h0, Updates(h), e.w);
  }

  lemma SameHomeTrans(d: Disk, e: Disk, f: Disk, a: Area)
    requires SameHome(d, e, a) && SameHome(e, f, a)
    ensures SameHome(d, f, a)
  {
  }

  /** Only the operations and the sleepers differ. */
  lemma SamePhase(c: Setting, s: State, s': State)
    requires Inv(c, s) && s' == s.(ops := s'.ops, asleep := s'.asleep, used := s'.used)
    requires (s.phase.Idle? && s'.ops != map[]) || ((s.phase.Idle? || s.phase.Committing?) && s'.ops == s.ops)
    ensures TypeOk(c, s') && LogOk(s'.disk, c.a) && Durable(c, s') && PhaseOk(c, s')
  {
    hide LogOk, SameHome, BlocksOk, Clean, Apply, CommitWrites, RecoverWrites, Recovered;
    if s.phase.Committing? {
      assert Writes(c, s') == Writes(c, s);
    }
  }

  lemma BeginKeeps(c: Setting, s: State, op: Op)
    requires Inv(c, s) && Enabled(c, s, Begin(op))
    ensures Inv(c, Do(c, s, Begin(op)))
  {
    hide LogOk, Writes, Durable, PhaseOk, TypeOk, Whole, Sleepers;
    var s' := Do(c, s, Begin(op));
    assert s.phase.Committing? ==> s'.ops == s.ops;
    SamePhase(c, s, s');
    BeginWhole(c, s, op);
  }

  lemma BeginWhole(c: Setting, s: State, op: Op)
    requires TypeOk(c, s) && Enabled(c, s, Begin(op)) && Whole(s) && Sleepers(s)
    ensures Whole(Do(c, s, Begin(op))) && Sleepers(Do(c, s, Begin(op)))
  {
    hide TypeOk;
  }

  lemma AbsorbOk(d: Disk, a: Area, bs: seq<nat>, b: nat)
    requires BlocksOk(d, a, bs) && b in d && !a.Has(b) && !TooBig(|bs|, a.size)
    ensures BlocksOk(d, a, Absorb(bs, b)) && Absorb(bs, b) != [] && |Absorb(bs, b)| >= |bs|
    ensures forall x :: x in Absorb(bs, b) <==> x in bs || x == b
  {
  }

  lemma LogWriteCurrent(c: Setting, s: State, op: Op, b: nat, v: Block)
    requires Inv(c, s) && Enabled(c, s, LogWrite(op, b, v)) && s.phase.Idle? && !TooBig(|s.bs|, c.a.size)
    ensures Current(c, Do(c, s, LogWrite(op, b, v)), s.disk)
  {
    hide LogOk, BlocksOk, Clean, Recovered, Apply;
    AbsorbOk(s.disk, c.a, s.bs, b);
    hide Absorb;
    ReplaySnoc(c, s.hist, Event(op, Write(b, v), true));
  }

  lemma LogWriteKeeps(c: Setting, s: State, op: Op, b: nat, v: Block)
    requires Inv(c, s) && Enabled(c, s, LogWrite(op, b, v))
    ensures Inv(c, Do(c, s, LogWrite(op, b, v)))
  {
    hide LogOk, SameHome, Clean, Replay, Recovered, Current, Whole, Sleepers;
    assert s.phase.Idle?;
    var s' := Do(c, s, LogWrite(op, b, v));
    LogWriteWhole(c, s, op, b, v);
    assert op in s'.ops;
    if TooBig(|s.bs|, c.a.size) {
      CurrentBlocks(c, s, s.disk);
      SameCurrent(c, s, s', s.disk);
    } else {
      LogWriteCurrent(c, s, op, b, v);
      CurrentBlocks(c, s', s.disk);
      assert s'.hist[..s'.cut] == s.hist[..s.cut];
    }
  }

  lemma LogWriteWhole(c: Setting, s: State, op: Op, b: nat, v: Block)
    requires TypeOk(c, s) && Enabled(c, s, LogWrite(op, b, v)) && Whole(s) && Sleepers(s)
    ensures var s' := Do(c, s, LogWrite(op, b, v)); Whole(s') && Sleepers(s')
  {
    hide TypeOk;
    var s' := Do(c, s, LogWrite(op, b, v));
    assert s'.ops.Keys == s.ops.Keys && |s'.ops| == |s'.ops.Keys| && |s.ops| == |s.ops.Keys|;
  }

  lemma CurrentBlocks(c: Setting, s: State, d: Disk)
    requires Current(c, s, d)
    ensures |s.bs| <= LOGSIZE && forall i :: 0 <= i < |s.bs| ==> s.bs[i] in s.view
    ensures s.bs == [] ==> s.cut == |s.hist|
  {
    hide Replay;
  }

  lemma StoreCurrent(c: Setting, s: State, op: Op, b: nat, v: Block)
    requires Inv(c, s) && Enabled(c, s, Store(op, b, v)) && s.phase.Idle?
    ensures Current(c, Do(c, s, Store(op, b, v)), s.disk)
  {
    hide LogOk, BlocksOk, Clean, Recovered, Apply;
    ReplaySnoc(c, s.hist, Event(op, Write(b, v), false));
    hide Replay;
  }

  lemma StoreKeeps(c: Setting, s: State, op: Op, b: nat, v: Block)
    requires Inv(c, s) && Enabled(c, s, Store(op, b, v))
    ensures Inv(c, Do(c, s, Store(op, b, v)))
  {
    hide LogOk, SameHome, BlocksOk, Clean, Apply, Recovered;
    assert s.phase.Idle?;
    var s' := Do(c, s, Store(op, b, v));
    StoreCurrent(c, s, op, b, v);
    hide Current;
    assert s'.hist[..s'.cut] == s.hist[..s.cut];
  }

  /** A stray block is not written by the commit under way. */
  lemma StrayUntouched(c: Setting, s: State, b: nat)
    requires Inv(c, s) && s.phase.Committing? && !c.a.Has(b) && b !in s.bs && b in s.phase.d0
    ensures b in s.disk && s.disk[b] == s.phase.d0[b]
  {
    hide Recovered, Replay, Durable;
    var ws := Writes(c, s)[..s.phase.k];
    assert forall i :: 0 <= i < |ws| ==> ws[i].b != b by {
      CommitTargets(c, s, b);
    }
    ApplyOther(s.phase.d0, ws, b);
  }

  lemma CommitTargets(c: Setting, s: State, b: nat)
    requires TypeOk(c, s) && s.phase.Committing? && |s.bs| < c.a.size && !c.a.Has(b) && b !in s.bs
    ensures forall i :: 0 <= i < |Writes(c, s)| ==> Writes(c, s)[i].b != b
  {
    assert c.a.Has(c.a.start);
    assert forall x: nat :: c.a.start < x <= c.a.start + |s.bs| ==> c.a.Has(x);
  }

  lemma RecycleCurrent(c: Setting, s: State, b: nat, d: Disk)
    requires Current(c, s, d) && b in s.stray && b in s.disk && b in d && s.disk[b] == d[b]
    ensures var s' := s.(view := s.view[b := s.disk[b]], stray := s.stray - {b}); Current(c, s', d)
  {
    hide Replay, BlocksOk;
  }

  lemma RecycleKeeps(c: Setting, s: State, b: nat)
    requires Inv(c, s) && Enabled(c, s, Recycle(b))
    ensures Inv(c, Do(c, s, Recycle(b)))
  {
    hide LogOk, SameHome, BlocksOk, Clean, Apply, Recovered, CommitWrites;
    var s' := Do(c, s, Recycle(b));
    if s.phase.Idle? {
      RecycleCurrent(c, s, b, s.disk);
    } else {
      StrayUntouched(c, s, b);
      RecycleCurrent(c, s, b, s.phase.d0);
      assert Contents(s'.view, s'.bs) == Contents(s.view, s.bs);
      assert Writes(c, s') == Writes(c, s);
    }
    hide Current, Replay;
  }

  lemma EndKeeps(c: Setting, s: State, op: Op)
    requires Inv(c, s) && Enabled(c, s, End(op))
    ensures Inv(c, Do(c, s, End(op)))
  {
    hide LogOk, BlocksOk, Clean, Recovered, SameHome;
    assert s.phase.Idle?;
    var s' := Do(c, s, End(op));
    if s'.phase.Idle? {
      hide Current, Durable;
      SamePhase(c, s, s');
    } else {
      CommitStart(c, s, s');
    }
  }

  lemma CommitStart(c: Setting, s: State, s': State)
    requires Inv(c, s) && s.phase.Idle? && s' == s.(ops := map[], phase := Committing(s.disk, 0))
    ensures Inv(c, s')
  {
    CleanRecovery(s.disk, c.a);
    ApplyNone(s.disk, Writes(c, s'));
    hide LogOk, BlocksOk, Clean, Recovered, CommitWrites, Apply;
  }

  /** The view agrees with the disk e, but for stray blocks. */
  ghost predicate Shown(c: Setting, s: State, e: Disk) {
    && (forall b :: !c.a.Has(b) ==> (b in s.view <==> b in e))
    && (forall b :: !c.a.Has(b) && b !in s.stray && b in e && b in s.view ==> s.view[b] == e[b])
    && (forall b :: b in s.stray ==> b in e)
  }

  /** The contents of the transaction, put in place, are the replay of the history. */
  lemma InstalledIsReplay(c: Setting, s: State, d: Disk, e: Disk)
    requires TypeOk(c, s) && Current(c, s, d) && Installed(d, e, c.a, s.bs, Contents(s.view, s.bs))
    ensures Shown(c, s, e) && SameHome(e, Replay(c, s.hist), c.a)
  {
    hide Replay;
    forall b | !c.a.Has(b) && b in s.bs
      ensures b in e && b in s.view && e[b] == s.view[b]
    {
      var i :| 0 <= i < |s.bs| && s.bs[i] == b;
      assert e[s.bs[i]] == Contents(s.view, s.bs)[i];
    }
    assert forall b :: b in s.bs ==> b in d;
  }

  /** The disk after k writes of a commit: what a crash then would leave. */
  lemma CommitDurable(c: Setting, s: State, k: nat)
    requires Inv(c, s) && s.phase.Committing? && k <= |Writes(c, s)|
    ensures var e := Apply(s.phase.d0, Writes(c, s)[..k]);
      && LogOk(e, c.a)
      && (k <= |s.bs| && s.phase.k <= |s.bs| ==> SameHome(Recovered(e, c.a), Replay(c, s.hist[..s.cut]), c.a))
      && (k > |s.bs| ==> SameHome(Recovered(e, c.a), Replay(c, s.hist), c.a))
      && (k == |Writes(c, s)| ==> Clean(e, c.a) && Shown(c, s, e) && SameHome(e, Replay(c, s.hist), c.a))
  {
    hide Replay, Recovered, CommitWrites, RecoverWrites;
    var d0, ws := s.phase.d0, Writes(c, s);
    var e := Apply(d0, ws[..k]);
    if s.bs == [] {
      ApplyNone(d0, ws);
      CleanRecovery(d0, c.a);
    } else {
      var vals := Contents(s.view, s.bs);
      assert TxnOk(d0, c.a, s.bs, vals);
      CommitPrefix(d0, c.a, s.bs, vals, k);
      hide LogOk, Clean, BlocksOk, Apply;
      if k > |s.bs| {
        InstalledIsReplay(c, s, d0, Recovered(e, c.a));
      }
      if k == |ws| {
        InstalledIsReplay(c, s, d0, e);
      }
      if k <= |s.bs| && s.phase.k <= |s.bs| {
        SameHomeTrans(Recovered(e, c.a), d0, Replay(c, s.hist[..s.cut]), c.a);
      }
    }
  }

  lemma CommitWriteKeeps(c: Setting, s: State)
    requires Inv(c, s) && Enabled(c, s, DiskWrite) && s.phase.Committing?
    ensures Inv(c, Do(c, s, DiskWrite))
  {
    hide LogOk, SameHome, Clean, Recovered, Replay, CommitWrites, RecoverWrites, Apply, Contents, Current, Whole;
    var s', k, ws := Do(c, s, DiskWrite), s.phase.k, Writes(c, s);
    CommitDurable(c, s, k + 1);
    ApplySnoc(s.phase.d0, ws, k);
    assert Writes(c, s') == ws;
    assert s.hist[..|s.hist|] == s.hist;
    SameCurrent(c, s, s', s.phase.d0);
    CommitWhole(s, s');
  }

  lemma CommitWhole(s: State, s': State)
    requires Whole(s) && s.ops == map[] && s'.ops == s.ops && s'.hist == s.hist && s'.used == s.used
    requires s'.cut == s.cut || s'.cut == |s.hist|
    ensures Whole(s')
  {
  }

  lemma SameCurrent(c: Setting, s: State, s': State, d: Disk)
    requires Current(c, s, d) && s'.view == s.view && s'.bs == s.bs && s'.hist == s.hist && s'.stray == s.stray
    requires s.bs == [] ==> s'.cut == |s.hist|
    ensures Current(c, s', d)
  {
    hide Replay, BlocksOk;
  }

  lemma RecoverWriteKeeps(c: Setting, s: State)
    requires Inv(c, s) && Enabled(c, s, DiskWrite) && s.phase.Recovering?
    ensures Inv(c, Do(c, s, DiskWrite))
  {
    hide LogOk, SameHome, BlocksOk, Clean, Recovered, Replay, CommitWrites, RecoverWrites;
    var s', k, ws, d0 := Do(c, s, DiskWrite), s.phase.k, Writes(c, s), s.phase.d0;
    RecoverPrefix(d0, c.a, k + 1);
    ApplySnoc(d0, ws, k);
    assert s.hist[..|s.hist|] == s.hist;
    SameHomeTrans(Recovered(s'.disk, c.a), Recovered(d0, c.a), Replay(c, s.hist), c.a);
    hide Apply;
  }

  lemma CommitDoneKeeps(c: Setting, s: State)
    requires Inv(c, s) && Enabled(c, s, CommitDone)
    ensures Inv(c, Do(c, s, CommitDone))
  {
    hide LogOk, Clean, Recovered, Replay, CommitWrites, RecoverWrites, Apply;
    var s', ws := Do(c, s, CommitDone), Writes(c, s);
    CommitDurable(c, s, |ws|);
    CommitLength(c, s);
    CleanFits(s.disk, c.a);
  }

  lemma CommitLength(c: Setting, s: State)
    requires TypeOk(c, s) && s.phase.Committing?
    ensures s.bs != [] ==> |Writes(c, s)| > |s.bs|
  {
  }

  lemma CleanFits(d: Disk, a: Area)
    requires LogOk(d, a)
    ensures BlocksOk(d, a, [])
  {
  }

  lemma CrashKeeps(c: Setting, s: State)
    requires Inv(c, s)
    ensures Inv(c, Crashed(s))
  {
    hide LogOk, Clean, Recovered, Replay, CommitWrites, RecoverWrites, SameHome, PhaseOk;
    var s' := Crashed(s);
    ApplyNone(s.disk, RecoverWrites(s.disk, c.a));
    assert s'.hist[..s'.cut] == s.hist[..s.cut] == s'.hist;
    assert PhaseOk(c, s') by {
      CrashPhase(c, s, s');
    }
  }

  lemma CrashPhase(c: Setting, s: State, s': State)
    requires TypeOk(c, s) && LogOk(s.disk, c.a) && Durable(c, s) && TypeOk(c, s')
    requires s' == Crashed(s)
    ensures PhaseOk(c, s')
  {
    hide LogOk, Clean, Recovered, Replay, SameHome;
    ApplyNone(s.disk, RecoverWrites(s.disk, c.a));
  }

  lemma RecoverDoneKeeps(c: Setting, s: State)
    requires Inv(c, s) && Enabled(c, s, RecoverDone)
    ensures Inv(c, Do(c, s, RecoverDone))
  {
    hide LogOk, Clean, Recovered, Replay, RecoverWrites, Apply;
    var s', ws, d0 := Do(c, s, RecoverDone), Writes(c, s), s.phase.d0;
    assert ws[..|ws|] == ws;
    RecoverPrefix(d0, c.a, |ws|);
    SameHomeTrans(s.disk, Recovered(d0, c.a), Replay(c, s.hist), c.a);
    CleanFits(s.disk, c.a);
  }

  lemma StepKeeps(c: Setting, s: State, st: Step)
    requires Inv(c, s) && Enabled(c, s, st)
    ensures Inv(c, Do(c, s, st))
  {
    match st
    case Begin(op) => BeginKeeps(c, s, op);
    case LogWrite(op, b, v) => LogWriteKeeps(c, s, op, b, v);
    case Store(op, b, v) => StoreKeeps(c, s, op, b, v);
    case Recycle(b) => RecycleKeeps(c, s, b);
    case End(op) => EndKeeps(c, s, op);
    case DiskWrite =>
      if s.phase.Committing? {
        CommitWriteKeeps(c, s);
      } else {
        RecoverWriteKeeps(c, s);
      }
    case CommitDone => CommitDoneKeeps(c, s);
    case Crash => CrashKeeps(c, s);
    case RecoverDone => RecoverDoneKeeps(c, s);
  }

  // ---------------------------------------------------------------- runs

  /** Boot: recovery starts on a disk whose log may hold a committed transaction; the home blocks
      h0 of the setting are those that this recovery will produce. */
  ghost predicate Init(c: Setting, s: State) {
    && LogOk(s.disk, c.a) && SameHome(Recovered(s.disk, c.a), c.h0, c.a)
    && s == State(s.disk, s.view, [], map[], {}, {}, Recovering(s.disk, 0), [], 0, {}, false)
  }

  ghost predicate IsRun(c: Setting, ss: seq<State>, sts: seq<Step>) {
    && |ss| == |sts| + 1
    && Init(c, ss[0])
    && forall i :: 0 <= i < |sts| ==> Goes(c, ss[i], sts[i], ss[i + 1])
  }

  ghost predicate Goes(c: Setting, s: State, st: Step, s': State) {
    TypeOk(c, s) && Enabled(c, s, st) && s' == Do(c, s, st)
  }

  lemma InitInv(c: Setting, s: State)
    requires Init(c, s)
    ensures Inv(c, s)
  {
    hide LogOk, SameHome, Recovered, RecoverWrites;
    ApplyNone(s.disk, RecoverWrites(s.disk, c.a));
    assert Updates([]) == [];
    assert Replay(c, []) == c.h0;
  }

  lemma {:induction false} RunInv(c: Setting, ss: seq<State>, sts: seq<Step>)
    requires IsRun(c, ss, sts)
    ensures Inv(c, ss[|sts|])
    decreases |sts|
  {
    hide Inv, Init, TypeOk, Enabled, Do;
    if |sts| == 0 {
      InitInv(c, ss[0]);
    } else {
      var n := |sts| - 1;
      assert Goes(c, ss[n], sts[n], ss[n + 1]);
      assert forall i :: 0 <= i <= n ==> ss[..n + 1][i] == ss[i];
      assert forall i :: 0 <= i < n ==> sts[..n][i] == sts[i];
      RunInv(c, ss[..n + 1], sts[..n]);
      StepKeeps(c, ss[n], sts[n]);
    }
  }

  /** Crash atomicity over whole runs: wherever a run stops, a recovery from its disk, and a
      recovery from any interrupted recovery, yields exactly the updates before the cut; and no
      operation has updates on both sides of the cut. */
  lemma CrashAtomicity(c: Setting, ss: seq<State>, sts: seq<Step>, j: nat)
    requires IsRun(c, ss, sts)
    ensures var s := ss[|sts|];
      && LogOk(s.disk, c.a) && s.cut <= |s.hist|
      && SameHome(Recovered(s.disk, c.a), Replay(c, s.hist[..s.cut]), c.a)
      && (forall i, k :: 0 <= i < s.cut <= k < |s.hist| ==> s.hist[i].op != s.hist[k].op)
      && (forall i :: 0 <= i < s.cut ==> s.hist[i].op !in s.ops)
      && (j <= |RecoverWrites(s.disk, c.a)| ==>
            var e := Apply(s.disk, RecoverWrites(s.disk, c.a)[..j]);
            LogOk(e, c.a) && SameHome(Recovered(e, c.a), Replay(c, s.hist[..s.cut]), c.a))
  {
    hide LogOk, Recovered, Replay, RecoverWrites, Apply;
    RunInv(c, ss, sts);
    var s := ss[|sts|];
    if j <= |RecoverWrites(s.disk, c.a)| {
      RecoverPrefix(s.disk, c.a, j);
      SameHomeTrans(Recovered(Apply(s.disk, RecoverWrites(s.disk, c.a)[..j]), c.a), Recovered(s.disk, c.a),
                    Replay(c, s.hist[..s.cut]), c.a);
    }
  }

  /** A step keeps the durable history, and adds to it only at the header write of a commit, the
      whole history then. */
  lemma CutGrows(c: Setting, s: State, st: Step)
    requires TypeOk(c, s) && Enabled(c, s, st)
    ensures var s' := Do(c, s, st);
      && s.cut <= |s.hist| && s'.cut <= |s'.hist| && s.hist[..s.cut] <= s'.hist[..s'.cut]
      && (s'.cut == s.cut || (st.DiskWrite? && s.phase.Committing? && s.phase.k == |s.bs| && s'.cut == |s.hist|))
  {
    hide Writes, Apply;
  }

  /** Durability: what is durable at one moment of a run is durable at every later one, crashes and
      recoveries included. */
  lemma {:induction false} DurableStays(c: Setting, ss: seq<State>, sts: seq<Step>, i: nat, j: nat)
    requires IsRun(c, ss, sts) && i <= j < |ss|
    ensures ss[i].cut <= |ss[i].hist| && ss[j].cut <= |ss[j].hist| && ss[i].hist[..ss[i].cut] <= ss[j].hist[..ss[j].cut]
    decreases j - i
  {
    hide Init, TypeOk, Enabled, Do;
    if i == j {
      InvAt(c, ss, sts, i);
      CutFits(c, ss[i]);
    } else {
      DurableStays(c, ss, sts, i, j - 1);
      assert Goes(c, ss[j - 1], sts[j - 1], ss[j]);
      CutGrows(c, ss[j - 1], sts[j - 1]);
    }
  }

  lemma CutFits(c: Setting, s: State)
    requires Inv(c, s)
    ensures s.cut <= |s.hist|
  {
  }

  lemma InvAt(c: Setting, ss: seq<State>, sts: seq<Step>, i: nat)
    requires IsRun(c, ss, sts) && i < |ss|
    ensures Inv(c, ss[i])
  {
    hide Init, Inv, Goes;
    assert forall k :: 0 <= k <= i ==> ss[..i + 1][k] == ss[k];
    assert forall k :: 0 <= k < i ==> Goes(c, ss[k], sts[k], ss[k + 1]);
    RunInv(c, ss[..i + 1], sts[..i]);
  }

  /** When a commit ends, everything that was logged is durable, and stays so. */
  lemma CommittedDurable(c: Setting, ss: seq<State>, sts: seq<Step>, i: nat, j: nat)
    requires IsRun(c, ss, sts) && i < |sts| && sts[i].CommitDone? && i <= j < |ss|
    ensures ss[i].cut == |ss[i].hist| && ss[j].cut <= |ss[j].hist| && ss[i].hist <= ss[j].hist[..ss[j].cut]
  {
    hide Init, LogOk, SameHome, Recovered;
    InvAt(c, ss, sts, i);
    assert Goes(c, ss[i], sts[i], ss[i + 1]);
    WritesLength(c, ss[i]);
    DurableStays(c, ss, sts, i, j);
  }

  lemma WritesLength(c: Setting, s: State)
    requires TypeOk(c, s) && s.phase.Committing?
    ensures |Writes(c, s)| > |s.bs| || s.bs == []
  {
  }

  /** A sleeper in begin_op always has a commit or an outstanding operation to wake it. */
  lemma SleeperHasWaker(c: Setting, ss: seq<State>, sts: seq<Step>)
    requires IsRun(c, ss, sts)
    ensures var s := ss[|sts|]; s.asleep != {} ==> s.phase.Committing? || s.ops != map[]
  {
    RunInv(c, ss, sts);
  }

  // ---------------------------------------------------------------- log space

  function Left(logged: set<nat>): nat {
    if |logged| < MAXOPBLOCKS then MAXOPBLOCKS - 1 - |logged| else 0
  }

  /** How many blocks the outstanding operations may still log, at MAXOPBLOCKS - 1 each. */
  ghost function Room(ops: map<Op, set<nat>>): nat
    decreases |ops|
  {
    if ops == map[] then 0 else
    var op :| op in ops;
    assert |ops - {op}| < |ops| by { Shrinks(ops, op); }
    Left(ops[op]) + Room(ops - {op})
  }

  lemma Shrinks(ops: map<Op, set<nat>>, op: Op)
    requires op in ops
    ensures |ops - {op}| == |ops| - 1
  {
    assert (ops - {op}).Keys == ops.Keys - {op};
    assert |ops.Keys| == |ops| && |(ops - {op}).Keys| == |ops - {op}|;
  }

  lemma {:induction false} RoomRemove(ops: map<Op, set<nat>>, op: Op)
    requires op in ops
    ensures Room(ops) == Left(ops[op]) + Room(ops - {op})
    decreases |ops|
  {
    var p :| p in ops && Room(ops) == Left(ops[p]) + Room(ops - {p});
    if p != op {
      Shrinks(ops, p);
      Shrinks(ops, op);
      RoomRemove(ops - {p}, op);
      RoomRemove(ops - {op}, p);
      assert ops - {p} - {op} == ops - {op} - {p};
    }
  }

  lemma {:induction false} RoomBound(ops: map<Op, set<nat>>)
    ensures Room(ops) <= (MAXOPBLOCKS - 1) * |ops|
    decreases |ops|
  {
    if ops != map[] {
      var op :| op in ops;
      Shrinks(ops, op);
      RoomRemove(ops, op);
      RoomBound(ops - {op});
    }
  }

  lemma RoomUpdate(ops: map<Op, set<nat>>, op: Op, x: set<nat>)
    ensures op in ops ==> Room(ops[op := x]) == Room(ops) - Left(ops[op]) + Left(x)
    ensures op !in ops ==> Room(ops[op := x]) == Room(ops) + Left(x)
  {
    RoomRemove(ops[op := x], op);
    if op in ops {
      RoomRemove(ops, op);
      assert ops[op := x] - {op} == ops - {op};
    } else {
      assert ops[op := x] - {op} == ops;
    }
  }

  /** With at most MAXOPBLOCKS - 1 blocks an operation, the header has room for all that can
      still come, below the number at which log_write panics. */
  ghost predicate SpaceInv(c: Setting, s: State) {
    && !s.panicked
    && |s.bs| + Room(s.ops) <= LOGSIZE - 2
    && (forall op, b :: op in s.ops && b in s.ops[op] ==> b in s.bs)
    && (forall op :: op in s.ops ==> |s.ops[op]| < MAXOPBLOCKS)
  }

  lemma BeginSpace(c: Setting, s: State, op: Op)
    requires Inv(c, s) && Enabled(c, s, Begin(op)) && SpaceInv(c, s)
    ensures SpaceInv(c, Do(c, s, Begin(op)))
  {
    hide LogOk, SameHome, BlocksOk, Clean, Recovered, Durable, Writes, Current;
    if !MustWait(|s.bs|, |s.ops|, s.phase.Committing?) {
      var ops := s.ops[op := {}];
      if s.ops == map[] {
        RoomUpdate(s.ops, op, {});
      } else {
        RoomBound(ops);
        assert |s.ops| > 0;
        assert ops.Keys == s.ops.Keys + {op};
        assert |ops.Keys| == |s.ops.Keys| + 1;
      }
    }
  }

  lemma LogWriteSpace(c: Setting, s: State, op: Op, b: nat, v: Block)
    requires Inv(c, s) && Enabled(c, s, LogWrite(op, b, v)) && SpaceInv(c, s)
    requires c.a.size == LOGSIZE && c.limit < MAXOPBLOCKS
    ensures SpaceInv(c, Do(c, s, LogWrite(op, b, v)))
  {
    hide LogOk, SameHome, BlocksOk, Clean, Recovered, Durable, Writes, Current;
    RoomUpdate(s.ops, op, s.ops[op] + {b});
    if b !in s.bs {
      assert |s.ops[op] + {b}| == |s.ops[op]| + 1;
    } else if b in s.ops[op] {
      assert s.ops[op] + {b} == s.ops[op];
    } else {
      assert |s.ops[op] + {b}| == |s.ops[op]| + 1;
    }
  }

  lemma StepSpace(c: Setting, s: State, st: Step)
    requires Inv(c, s) && Enabled(c, s, st) && SpaceInv(c, s) && c.a.size == LOGSIZE && c.limit < MAXOPBLOCKS
    ensures SpaceInv(c, Do(c, s, st))
  {
    hide LogOk, SameHome, BlocksOk, Clean, Recovered, Durable, Writes, Current;
    match st
    case Begin(op) => BeginSpace(c, s, op);
    case LogWrite(op, b, v) => LogWriteSpace(c, s, op, b, v);
    case End(op) => RoomRemove(s.ops, op);
    case _ =>
  }

  lemma {:induction false} SpaceRun(c: Setting, ss: seq<State>, sts: seq<Step>)
    requires IsRun(c, ss, sts) && c.a.size == LOGSIZE && c.limit < MAXOPBLOCKS
    ensures SpaceInv(c, ss[|sts|])
    decreases |sts|
  {
    hide Inv, TypeOk, Enabled, Do;
    if |sts| > 0 {
      hide Init, SpaceInv;
      var n := |sts| - 1;
      assert Goes(c, ss[n], sts[n], ss[n + 1]);
      assert forall i :: 0 <= i <= n ==> ss[..n + 1][i] == ss[i];
      assert forall i :: 0 <= i < n ==> sts[..n][i] == sts[i];
      RunInv(c, ss[..n + 1], sts[..n]);
      SpaceRun(c, ss[..n + 1], sts[..n]);
      StepSpace(c, ss[n], sts[n]);
    }
  }

  /** No interleaving makes log_write or end_op panic when every operation logs at most
      MAXOPBLOCKS - 1 distinct blocks. */
  lemma NoOverflow(c: Setting, ss: seq<State>, sts: seq<Step>)
    requires IsRun(c, ss, sts) && c.a.size == LOGSIZE && c.limit < MAXOPBLOCKS
    ensures !ss[|sts|].panicked
  {
    SpaceRun(c, ss, sts);
  }

  // With MAXOPBLOCKS blocks an operation, the panic is reachable.

  lemma Extend(c: Setting, ss: seq<State>, sts: seq<Step>, st: Step)
    requires IsRun(c, ss, sts) && TypeOk(c, ss[|sts|]) && Enabled(c, ss[|sts|], st)
    ensures IsRun(c, ss + [Do(c, ss[|sts|], st)], sts + [st])
  {
    hide TypeOk, Enabled, Do, Init;
    var ss', sts' := ss + [Do(c, ss[|sts|], st)], sts + [st];
    forall i | 0 <= i < |sts'|
      ensures Goes(c, ss'[i], sts'[i], ss'[i + 1])
    {
      if i < |sts| {
        assert Goes(c, ss[i], sts[i], ss[i + 1]);
      }
    }
  }

  /** Three operations are under way and have logged the first i of the blocks hb, ten each. */
  ghost predicate Filled(c: Setting, s: State, hb: seq<nat>, i: nat) {
    && i <= |hb| && s.phase.Idle? && !s.panicked && s.bs == hb[..i] && s.ops.Keys == {0, 1, 2}
    && (forall b :: b in hb ==> b in s.view && !c.a.Has(b))
    && (forall op :: op in s.ops ==> |s.ops[op]| <= if i <= 10 * op then 0 else i - 10 * op)
  }

  lemma FillOne(c: Setting, s: State, hb: seq<nat>, i: nat)
    requires Inv(c, s) && Filled(c, s, hb, i) && i < |hb| == LOGSIZE
    requires c.a.size == LOGSIZE && c.limit >= MAXOPBLOCKS
    requires forall j, k :: 0 <= j < k < |hb| ==> hb[j] != hb[k]
    ensures var st := LogWrite(i / 10, hb[i], Data([]));
      && Enabled(c, s, st)
      && (i < LOGSIZE - 1 ==> Filled(c, Do(c, s, st), hb, i + 1))
      && (i == LOGSIZE - 1 ==> Do(c, s, st).panicked)
  {
    hide LogOk, Durable, Writes, PhaseOk, Whole, Sleepers;
    var op := i / 10;
    assert op in {0, 1, 2};
    assert |s.ops[op] + {hb[i]}| <= |s.ops[op]| + 1;
    assert hb[i] !in hb[..i] && hb[..i] + [hb[i]] == hb[..i + 1];
  }

  lemma {:induction false} Fill(c: Setting, ss: seq<State>, sts: seq<Step>, hb: seq<nat>, i: nat)
    returns (ss': seq<State>, sts': seq<Step>)
    requires IsRun(c, ss, sts) && Filled(c, ss[|sts|], hb, i) && i < |hb| == LOGSIZE
    requires c.a.size == LOGSIZE && c.limit >= MAXOPBLOCKS
    requires forall j, k :: 0 <= j < k < |hb| ==> hb[j] != hb[k]
    ensures IsRun(c, ss', sts') && ss'[|sts'|].panicked
    decreases LOGSIZE - i
  {
    hide IsRun, Filled, Do;
    RunShape(c, ss, sts);
    var s, st := ss[|sts|], LogWrite(i / 10, hb[i], Data([]));
    RunInv(c, ss, sts);
    FillOne(c, s, hb, i);
    Extend(c, ss, sts, st);
    ss', sts' := ss + [Do(c, s, st)], sts + [st];
    assert ss'[|sts'|] == Do(c, s, st);
    if i < LOGSIZE - 1 {
      ss', sts' := Fill(c, ss', sts', hb, i + 1);
    }
  }

  lemma Boot(c: Setting, d: Disk, view: Disk) returns (ss: seq<State>, sts: seq<Step>)
    requires LogOk(d, c.a) && Clean(d, c.a) && SameHome(Recovered(d, c.a), c.h0, c.a)
    ensures IsRun(c, ss, sts) && ss[|sts|].phase.Idle? && !ss[|sts|].panicked
    ensures ss[|sts|].ops == map[] && ss[|sts|].asleep == {} && ss[|sts|].used == {} && ss[|sts|].bs == []
    ensures ss[|sts|].hist == []
    ensures forall b :: b in d ==> b in ss[|sts|].view
  {
    var s0 := State(d, view, [], map[], {}, {}, Recovering(d, 0), [], 0, {}, false);
    assert |Writes(c, s0)| == 1;
    hide LogOk, SameHome, Recovered;
    var s1 := Do(c, s0, DiskWrite);
    InitInv(c, s0);
    assert IsRun(c, [s0], []);
    Extend(c, [s0], [], DiskWrite);
    assert [s0] + [s1] == [s0, s1] && [] + [DiskWrite] == [DiskWrite];
    Extend(c, [s0, s1], [DiskWrite], RecoverDone);
    ss, sts := [s0, s1] + [Do(c, s1, RecoverDone)], [DiskWrite] + [RecoverDone];
  }

  lemma Start(c: Setting, ss: seq<State>, sts: seq<Step>, op: Op) returns (ss': seq<State>, sts': seq<Step>)
    requires IsRun(c, ss, sts)
    requires var s := ss[|sts|];
      s.phase.Idle? && !s.panicked && s.asleep == {} && s.bs == [] && op !in s.used && |s.ops| < 3
    ensures IsRun(c, ss', sts') && |ss'| == |ss| + 1
    ensures var s, s' := ss[|sts|], ss'[|sts'|]; s' == s.(ops := s.ops[op := {}], used := s.used + {op})
  {
    hide LogOk, SameHome, BlocksOk, Clean, Recovered, Durable, Writes, Current, IsRun;
    RunShape(c, ss, sts);
    RunInv(c, ss, sts);
    assert LogOk(ss[|sts|].disk, c.a);
    Extend(c, ss, sts, Begin(op));
    ss', sts' := ss + [Do(c, ss[|sts|], Begin(op))], sts + [Begin(op)];
    RunShape(c, ss, sts);
    RunShape(c, ss', sts');
  }

  lemma RunShape(c: Setting, ss: seq<State>, sts: seq<Step>)
    requires IsRun(c, ss, sts)
    ensures |ss| == |sts| + 1
  {
  }

  /** A limit of MAXOPBLOCKS blocks per operation is not enough: three operations that log ten
      blocks each make the last log_write panic. */
  lemma OverflowReachable(c: Setting, d: Disk, hb: seq<nat>) returns (ss: seq<State>, sts: seq<Step>)
    requires c.a.size == LOGSIZE && c.limit >= MAXOPBLOCKS
    requires LogOk(d, c.a) && Clean(d, c.a) && SameHome(Recovered(d, c.a), c.h0, c.a)
    requires |hb| == LOGSIZE && forall i :: 0 <= i < |hb| ==> hb[i] in d && !c.a.Has(hb[i])
    requires forall i, j :: 0 <= i < j < |hb| ==> hb[i] != hb[j]
    ensures IsRun(c, ss, sts) && ss[|sts|].panicked
  {
    hide LogOk, SameHome, Recovered, Clean;
    ss, sts := Boot(c, d, map[]);
    ss, sts := Start(c, ss, sts, 0);
    ss, sts := Start(c, ss, sts, 1);
    ss, sts := Start(c, ss, sts, 2);
    assert hb[..0] == [];
    ss, sts := Fill(c, ss, sts, hb, 0);
  }
}
