/** Copy-on-write memory as interleaved steps.

    Any number of processes run user code, take store faults, fork, grow, shrink and exit at the
    same time. One step is one critical section of kalloc.c, one change of a page-table entry, or
    the copy of one byte by handle_cow_fault. A page table is its map from virtual page number to
    leaf entry; the radix tree behind it is module `PageTable`. */
module CowMachine {
  import opened Frames
  import opened Params

  type Pid = nat

  /** The process that userinit makes. It may not exit. */
  const INIT: Pid := 1

  type Vpn = nat
  type Page = seq<Byte>

  datatype Option<T> = None | Some(value: T)

  datatype Leaf = Leaf(pa: Pa, u: bool, w: bool, cow: bool, x: bool)

  /** Why handle_cow_fault runs: a user store trapped, or copyout met a copy-on-write page. */
  datatype Cause = Trap | CopyOut(off: nat, data: seq<Byte>)

  /** Where a process is in the memory system. */
  datatype Pc =
    | User
    | CopyMove(v: Vpn, off: nat, data: seq<Byte>)
    | FaultTest(v: Vpn, why: Cause)
    | FaultCount(v: Vpn, why: Cause)
    | FaultUpgrade(v: Vpn, why: Cause)
    | FaultAlloc(v: Vpn, why: Cause)
    | FaultCopy(v: Vpn, why: Cause, mem: Pa, k: nat)
    | FaultDrop(v: Vpn, why: Cause, old_pa: Pa)
    | FaultPush(v: Vpn, why: Cause, old_pa: Pa)
    | ForkPage(child: Pid, i: Vpn)
    | ForkIncref(child: Pid, i: Vpn)
    | Embryo(parent: Pid, uncounted: Option<Vpn>)
    | Grow(cur: Vpn, target: Vpn)
    | GrowMap(cur: Vpn, target: Vpn, mem: Pa)
    | GrowDrop(cur: Vpn, mem: Pa)
    | GrowPush(cur: Vpn, mem: Pa)
    | Unmap(cur: Vpn, hi: Vpn, exiting: bool)
    | UnmapPush(cur: Vpn, hi: Vpn, exiting: bool)
    | UnmapClear(cur: Vpn, hi: Vpn, exiting: bool)

  /** `np` is the number of pages that belong to the process: the entries at np and above are
      those of a growth not yet finished or of a removal not yet finished. */
  datatype Proc = Proc(pc: Pc, pt: map<Vpn, Leaf>, np: nat)

  /** `kern` are the pages the rest of the kernel uses (page-table pages, trapframes, pipes),
      `kpush` those it is freeing. A halted machine has panicked. */
  datatype State = State(procs: map<Pid, Proc>, k: Kmem, mem: map<Pa, Page>,
                         kern: set<Pa>, kpush: set<Pa>, halted: bool)

  datatype Step =
    | Store(p: Pid, v: Vpn, off: nat, b: Byte)
    | StoreFault(p: Pid, v: Vpn)
    | Copyout(p: Pid, v: Vpn, off: nat, data: seq<Byte>)
    | DoCopyMove(p: Pid)
    | DoTest(p: Pid)
    | DoCount(p: Pid)
    | DoUpgrade(p: Pid)
    | DoAlloc(p: Pid, junk: Page)
    | DoCopyByte(p: Pid)
    | DoRemap(p: Pid)
    | DoDrop(p: Pid)
    | DoPush(p: Pid)
    | Fork(p: Pid, c: Pid)
    | DoForkPage(p: Pid, mapped: bool)
    | DoForkIncref(p: Pid)
    | DoForkDone(p: Pid)
    | Sbrk(p: Pid, target: Vpn)
    | DoGrowMap(p: Pid, mapped: bool)
    | DoGrowDone(p: Pid)
    | DoUnmap(p: Pid)
    | DoClear(p: Pid)
    | DoUnmapDone(p: Pid)
    | Exit(p: Pid)
    | KernelAlloc
    | KernelFree(pa: Pa)
    | KernelPush(pa: Pa)

  /** What a step means for the memory that programs see. */
  datatype Label =
    | Tau
    | Stored(p: Pid, v: Vpn, off: nat, data: seq<Byte>)
    | Forked(p: Pid, c: Pid)
    | Grew(p: Pid, np: nat)
    | Shrank(p: Pid, np: nat)
    | Exited(p: Pid)
    | KilledBad(p: Pid, v: Vpn)
    | KilledOom(p: Pid)
    | RefusedBad(p: Pid, v: Vpn)
    | RefusedOom(p: Pid)

  // ---------------------------------------------------------------- steps

  function At(s: State, p: Pid, pr: Proc): State {
    s.(procs := s.procs[p := pr])
  }

  function Goto(s: State, p: Pid, pc: Pc): State
    requires p in s.procs
  {
    At(s, p, s.procs[p].(pc := pc))
  }

  /** Overwrite part of a page. */
  function Splice(page: Page, off: nat, data: seq<Byte>): (r: Page)
    requires off + |data| <= |page|
    ensures |r| == |page|
    ensures forall j :: 0 <= j < |page| ==>
      r[j] == if off <= j < off + |data| then data[j - off] else page[j]
  {
    page[..off] + data + page[off + |data|..]
  }

  /** handle_cow_fault returned 0: the trap returns to user code, which stores again; copyout
      goes on to its own tests. */
  function Handled(v: Vpn, why: Cause): Pc {
    match why
    case Trap => User
    case CopyOut(off, data) => CopyMove(v, off, data)
  }

  /** handle_cow_fault failed: a trap kills the process, copyout returns -1. A killed process exits,
      and the kernel panics if it is init. */
  function Failed(s: State, p: Pid, v: Vpn, why: Cause, oom: bool): (State, Label)
    requires p in s.procs
  {
    match why
    case Trap =>
      if p == INIT then (s.(halted := true), Tau)
      else (Leave(s, p), if oom then KilledOom(p) else KilledBad(p, v))
    case CopyOut(_, _) =>
      (Goto(s, p, User), if oom then RefusedOom(p) else RefusedBad(p, v))
  }

  /** The process is gone for its programs; uvmunmap of [0, np) remains to be done. */
  function Leave(s: State, p: Pid): State
    requires p in s.procs
  {
    var pr := s.procs[p];
    At(s, p, Proc(Unmap(0, pr.np, true), pr.pt, 0))
  }

  ghost predicate Managed(s: State, pa: Pa) {
    pa in s.k.refcnt && pa in s.mem && |s.mem[pa]| == PGSIZE
  }

  /** Every entry and page that a program counter mentions exists. */
  ghost predicate TypeOk(s: State) {
    && (forall p :: p in s.procs ==> LocalOk(s.procs[p]) && PagesOk(s, s.procs[p]) && ChildOk(s, s.procs[p]))
    && (forall pa :: pa in s.k.refcnt ==> Managed(s, pa))
    && (forall pa :: pa in s.kern ==> Managed(s, pa))
  }

  ghost predicate UpTo(pt: map<Vpn, Leaf>, n: nat) {
    forall v: Vpn :: v in pt <==> v < n
  }

  ghost predicate Gap(pt: map<Vpn, Leaf>, np: nat, cur: nat, hi: nat) {
    forall v: Vpn :: v in pt <==> v < np || cur <= v < hi
  }

  /** The pages that uvmalloc has added so far, from page np on. */
  ghost predicate Writable(pt: map<Vpn, Leaf>, np: nat) {
    forall v :: v in pt && np <= v ==> pt[v].u && pt[v].w
  }

  predicate FaultEntry(pr: Proc, v: Vpn) {
    v in pr.pt && pr.pt[v].u && pr.pt[v].cow && !pr.pt[v].w
  }

  predicate Handling(pr: Proc, v: Vpn) {
    v in pr.pt && !pr.pt[v].cow
  }

  predicate Replaced(pr: Proc, v: Vpn) {
    Handling(pr, v) && pr.pt[v].u && pr.pt[v].w
  }

  /** Which entries the page table of a process has, and what the process knows of the entry it
      is working on. */
  ghost predicate LocalOk(pr: Proc) {
    var pt, np := pr.pt, pr.np;
    match pr.pc
    case User => UpTo(pt, np)
    case CopyMove(v, off, data) => UpTo(pt, np) && Handling(pr, v) && off + |data| <= PGSIZE
    case FaultTest(v, why) => UpTo(pt, np) && CauseOk(why) && !(v in pt && pt[v].u && pt[v].w)
    case FaultCount(v, why) => UpTo(pt, np) && CauseOk(why) && FaultEntry(pr, v)
    case FaultUpgrade(v, why) => UpTo(pt, np) && CauseOk(why) && FaultEntry(pr, v)
    case FaultAlloc(v, why) => UpTo(pt, np) && CauseOk(why) && FaultEntry(pr, v)
    case FaultCopy(v, why, _, k) => UpTo(pt, np) && CauseOk(why) && FaultEntry(pr, v) && k <= PGSIZE
    case FaultDrop(v, why, _) => UpTo(pt, np) && CauseOk(why) && Replaced(pr, v)
    case FaultPush(v, why, _) => UpTo(pt, np) && CauseOk(why) && Replaced(pr, v)
    case ForkPage(_, i) => UpTo(pt, np) && i <= np
    case ForkIncref(_, i) => UpTo(pt, np) && i < np
    case Embryo(_, uncounted) => np == 0
    case Grow(cur, target) => np <= cur <= target && UpTo(pt, cur) && Writable(pt, np)
    case GrowMap(cur, target, _) => np <= cur < target && UpTo(pt, cur) && Writable(pt, np)
    case GrowDrop(cur, _) => np <= cur && UpTo(pt, cur)
    case GrowPush(cur, _) => np <= cur && UpTo(pt, cur)
    case Unmap(cur, hi, ex) => np <= cur <= hi && Gap(pt, np, cur, hi) && (ex ==> np == 0)
    case UnmapPush(cur, hi, ex) => np <= cur < hi && Gap(pt, np, cur, hi) && (ex ==> np == 0)
    case UnmapClear(cur, hi, ex) => np <= cur < hi && Gap(pt, np, cur, hi) && (ex ==> np == 0)
  }

  ghost predicate PagesOk(s: State, pr: Proc) {
    && (forall v :: v in pr.pt ==> Managed(s, pr.pt[v].pa))
    && (Held(pr).Some? ==> Managed(s, Held(pr).value))
    && (Pushing(pr).Some? ==> Managed(s, Pushing(pr).value))
  }

  ghost predicate ChildOk(s: State, pr: Proc) {
    (pr.pc.ForkPage? || pr.pc.ForkIncref?) ==> pr.pc.child in s.procs
  }

  ghost predicate CauseOk(why: Cause) {
    why.CopyOut? ==> why.off + |why.data| <= PGSIZE
  }

  ghost predicate Enabled(s: State, st: Step) {
    && !s.halted
    && (st.KernelAlloc? || st.KernelFree? || st.KernelPush? || st.p in s.procs)
    && match st
       case Store(p, v, off, b) =>
         var pr := s.procs[p];
         pr.pc.User? && v in pr.pt && pr.pt[v].u && pr.pt[v].w && off < PGSIZE
       case StoreFault(p, v) =>
         var pr := s.procs[p];
         pr.pc.User? && !(v in pr.pt && pr.pt[v].u && pr.pt[v].w)
       case Copyout(p, v, off, data) => s.procs[p].pc.User? && off + |data| <= PGSIZE
       case DoCopyMove(p) => s.procs[p].pc.CopyMove?
       case DoTest(p) => s.procs[p].pc.FaultTest?
       case DoCount(p) => s.procs[p].pc.FaultCount?
       case DoUpgrade(p) => s.procs[p].pc.FaultUpgrade?
       case DoAlloc(p, junk) =>
         |junk| == PGSIZE &&
         (s.procs[p].pc.FaultAlloc? || (s.procs[p].pc.Grow? && s.procs[p].pc.cur < s.procs[p].pc.target))
       case DoCopyByte(p) => s.procs[p].pc.FaultCopy? && s.procs[p].pc.k < PGSIZE
       case DoRemap(p) => s.procs[p].pc.FaultCopy? && s.procs[p].pc.k == PGSIZE
       case DoDrop(p) => s.procs[p].pc.FaultDrop? || s.procs[p].pc.GrowDrop?
       case DoPush(p) =>
         s.procs[p].pc.FaultPush? || s.procs[p].pc.GrowPush? || s.procs[p].pc.UnmapPush?
       case Fork(p, c) => s.procs[p].pc.User? && c !in s.procs
       case DoForkPage(p, mapped) => s.procs[p].pc.ForkPage? && s.procs[p].pc.i < s.procs[p].np
       case DoForkIncref(p) => s.procs[p].pc.ForkIncref?
       case DoForkDone(p) => s.procs[p].pc.ForkPage? && s.procs[p].pc.i == s.procs[p].np
       case Sbrk(p, target) => s.procs[p].pc.User?
       case DoGrowMap(p, mapped) => s.procs[p].pc.GrowMap?
       case DoGrowDone(p) => s.procs[p].pc.Grow? && s.procs[p].pc.cur == s.procs[p].pc.target
       case DoUnmap(p) => s.procs[p].pc.Unmap? && s.procs[p].pc.cur < s.procs[p].pc.hi
       case DoClear(p) => s.procs[p].pc.UnmapClear?
       case DoUnmapDone(p) => s.procs[p].pc.Unmap? && s.procs[p].pc.cur == s.procs[p].pc.hi
       case Exit(p) => s.procs[p].pc.User?
       case KernelAlloc => s.k.free != []
       case KernelFree(pa) => pa in s.kern
       case KernelPush(pa) => pa in s.kpush
  }

  /** uvmcopy for one page: drop PTE_W and mark the entry copy-on-write, in the parent and in
      the child's copy. */
  function Share(l: Leaf): Leaf {
    if l.w then l.(w := false, cow := true) else l
  }

  ghost function Do(s: State, st: Step): (State, Label)
    requires TypeOk(s) && Enabled(s, st)
  {
    match st
    case Store(p, v, off, b) => StoreStep(s, p, v, off, b)
    case StoreFault(p, v) => StoreFaultStep(s, p, v)
    case Copyout(p, v, off, data) => CopyoutStep(s, p, v, off, data)
    case DoCopyMove(p) => CopyMoveStep(s, p)
    case DoTest(p) => TestStep(s, p)
    case DoCount(p) => CountStep(s, p)
    case DoUpgrade(p) => UpgradeStep(s, p)
    case DoAlloc(p, junk) => AllocStep(s, p, junk)
    case DoCopyByte(p) => CopyByteStep(s, p)
    case DoRemap(p) => RemapStep(s, p)
    case DoDrop(p) => DropStep(s, p)
    case DoPush(p) => PushStep(s, p)
    case Fork(p, c) => ForkStep(s, p, c)
    case DoForkPage(p, mapped) => ForkPageStep(s, p, mapped)
    case DoForkIncref(p) => ForkIncrefStep(s, p)
    case DoForkDone(p) => ForkDoneStep(s, p)
    case Sbrk(p, target) => SbrkStep(s, p, target)
    case DoGrowMap(p, mapped) => GrowMapStep(s, p, mapped)
    case DoGrowDone(p) => GrowDoneStep(s, p)
    case DoUnmap(p) => UnmapStep(s, p)
    case DoClear(p) => ClearStep(s, p)
    case DoUnmapDone(p) => UnmapDoneStep(s, p)
    case Exit(p) => if p == INIT then (s.(halted := true), Tau) else (Leave(s, p), Exited(p))
    case KernelAlloc => (KernelAllocStep(s), Tau)
    case KernelFree(pa) => (KernelFreeStep(s, pa), Tau)
    case KernelPush(pa) => (s.(k := Push(s.k, pa), kpush := s.kpush - {pa}), Tau)
  }

  // user stores and copyout

  ghost function StoreStep(s: State, p: Pid, v: Vpn, off: nat, b: Byte): (State, Label)
    requires TypeOk(s) && Enabled(s, Store(p, v, off, b))
  {
    var pa := s.procs[p].pt[v].pa;
    (s.(mem := s.mem[pa := Splice(s.mem[pa], off, [b])]), Stored(p, v, off, [b]))
  }

  ghost function StoreFaultStep(s: State, p: Pid, v: Vpn): (State, Label)
    requires Enabled(s, StoreFault(p, v))
  {
    (Goto(s, p, FaultTest(v, Trap)), Tau)
  }

  /** The head of copyout's loop, for one page. */
  ghost function CopyoutStep(s: State, p: Pid, v: Vpn, off: nat, data: seq<Byte>): (State, Label)
    requires TypeOk(s) && Enabled(s, Copyout(p, v, off, data))
  {
    var pt := s.procs[p].pt;
    if v !in pt then (s, RefusedBad(p, v))
    else if pt[v].cow then (Goto(s, p, FaultTest(v, CopyOut(off, data))), Tau)
    else (Goto(s, p, CopyMove(v, off, data)), Tau)
  }

  ghost function CopyMoveStep(s: State, p: Pid): (State, Label)
    requires TypeOk(s) && Enabled(s, DoCopyMove(p))
  {
    var CopyMove(v, off, data) := s.procs[p].pc;
    var l := s.procs[p].pt[v];
    if l.u && l.w then
      (Goto(s, p, User).(mem := s.mem[l.pa := Splice(s.mem[l.pa], off, data)]), Stored(p, v, off, data))
    else
      (Goto(s, p, User), RefusedBad(p, v))
  }

  // handle_cow_fault

  ghost function TestStep(s: State, p: Pid): (State, Label)
    requires TypeOk(s) && Enabled(s, DoTest(p))
  {
    var FaultTest(v, why) := s.procs[p].pc;
    var pt := s.procs[p].pt;
    if v !in pt || !pt[v].u || !pt[v].cow then Failed(s, p, v, why, false)
    else (Goto(s, p, FaultCount(v, why)), Tau)
  }

  ghost function CountStep(s: State, p: Pid): (State, Label)
    requires TypeOk(s) && Enabled(s, DoCount(p))
  {
    var FaultCount(v, why) := s.procs[p].pc;
    var pa := s.procs[p].pt[v].pa;
    (Goto(s, p, if s.k.refcnt[pa] == 1 then FaultUpgrade(v, why) else FaultAlloc(v, why)), Tau)
  }

  ghost function UpgradeStep(s: State, p: Pid): (State, Label)
    requires TypeOk(s) && Enabled(s, DoUpgrade(p))
  {
    var pr := s.procs[p];
    var FaultUpgrade(v, why) := pr.pc;
    (At(s, p, pr.(pc := Handled(v, why), pt := pr.pt[v := pr.pt[v].(w := true, cow := false)])), Tau)
  }

  /** kalloc, by the fault handler or by uvmalloc. The page arrives with arbitrary contents. */
  ghost function AllocStep(s: State, p: Pid, junk: Page): (State, Label)
    requires TypeOk(s) && Enabled(s, DoAlloc(p, junk))
  {
    var pc := s.procs[p].pc;
    if s.k.free == [] then
      if pc.FaultAlloc? then Failed(s, p, pc.v, pc.why, true)
      else (Goto(s, p, Unmap(s.procs[p].np, pc.cur, false)), Tau)
    else
      var pa := s.k.free[0];
      var next := if pc.FaultAlloc? then FaultCopy(pc.v, pc.why, pa, 0) else GrowMap(pc.cur, pc.target, pa);
      (Goto(s, p, next).(k := Kalloc(s.k), mem := s.mem[pa := junk]), Tau)
  }

  ghost function CopyByteStep(s: State, p: Pid): (State, Label)
    requires TypeOk(s) && Enabled(s, DoCopyByte(p))
  {
    var FaultCopy(v, why, mem, k) := s.procs[p].pc;
    var b := s.mem[s.procs[p].pt[v].pa][k];
    (Goto(s, p, FaultCopy(v, why, mem, k + 1)).(mem := s.mem[mem := s.mem[mem][k := b]]), Tau)
  }

  ghost function RemapStep(s: State, p: Pid): (State, Label)
    requires TypeOk(s) && Enabled(s, DoRemap(p))
  {
    var pr := s.procs[p];
    var FaultCopy(v, why, mem, _) := pr.pc;
    var l := pr.pt[v];
    (At(s, p, pr.(pc := FaultDrop(v, why, l.pa), pt := pr.pt[v := l.(pa := mem, w := true, cow := false)])), Tau)
  }

  /** kfree's first critical section, for the page that a fault replaced or that uvmalloc could
      not map. */
  ghost function DropStep(s: State, p: Pid): (State, Label)
    requires TypeOk(s) && Enabled(s, DoDrop(p))
  {
    var pc, np := s.procs[p].pc, s.procs[p].np;
    var pa := if pc.FaultDrop? then pc.old_pa else pc.mem;
    var k' := Decref(s.k, pa);
    var next :=
      if pc.FaultDrop? then
        if k'.refcnt[pa] > 0 then Handled(pc.v, pc.why) else FaultPush(pc.v, pc.why, pa)
      else
        if k'.refcnt[pa] > 0 then Unmap(np, pc.cur, false) else GrowPush(pc.cur, pa);
    (Goto(s, p, next).(k := k'), Tau)
  }

  /** kfree's second critical section. */
  ghost function PushStep(s: State, p: Pid): (State, Label)
    requires TypeOk(s) && Enabled(s, DoPush(p))
  {
    var pc, np := s.procs[p].pc, s.procs[p].np;
    var next :=
      if pc.FaultPush? then Handled(pc.v, pc.why)
      else if pc.GrowPush? then Unmap(np, pc.cur, false)
      else UnmapClear(pc.cur, pc.hi, pc.exiting);
    (Goto(s, p, next).(k := Push(s.k, Pushing(s.procs[p]).value)), Tau)
  }

  // fork

  ghost function ForkStep(s: State, p: Pid, c: Pid): (State, Label)
    requires Enabled(s, Fork(p, c))
  {
    (At(Goto(s, p, ForkPage(c, 0)), c, Proc(Embryo(p, None), map[], 0)), Tau)
  }

  /** One turn of uvmcopy's loop up to mappages. When mappages finds no memory for a table page,
      fork tears the child down with size 0, and freewalk panics on the first leaf it meets, so
      fork survives the failure only if no page had been mapped. */
  ghost function ForkPageStep(s: State, p: Pid, mapped: bool): (State, Label)
    requires TypeOk(s) && Enabled(s, DoForkPage(p, mapped))
  {
    var ForkPage(c, i) := s.procs[p].pc;
    if mapped then (SharePage(s, p, c, i), Tau)
    else if i == 0 then (ForkUndone(s, p, c), Tau)
    else (s.(halted := true), Tau)
  }

  function SharePage(s: State, p: Pid, c: Pid, i: Vpn): State
    requires p in s.procs && c in s.procs && i in s.procs[p].pt
  {
    var pr, ch := s.procs[p], s.procs[c];
    var l := Share(pr.pt[i]);
    At(At(s, p, pr.(pc := ForkIncref(c, i), pt := pr.pt[i := l])), c,
       ch.(pc := Embryo(p, Some(i)), pt := ch.pt[i := l]))
  }

  function ForkUndone(s: State, p: Pid, c: Pid): State
    requires p in s.procs && 0 in s.procs[p].pt
  {
    var pr := s.procs[p];
    s.(procs := s.procs[p := pr.(pc := User, pt := pr.pt[0 := Share(pr.pt[0])])] - {c})
  }

  ghost function ForkIncrefStep(s: State, p: Pid): (State, Label)
    requires TypeOk(s) && Enabled(s, DoForkIncref(p))
  {
    (CountPage(s, p, s.procs[p].pc.child, s.procs[p].pc.i), Tau)
  }

  function CountPage(s: State, p: Pid, c: Pid, i: Vpn): State
    requires p in s.procs && c in s.procs && i in s.procs[p].pt && s.procs[p].pt[i].pa in s.k.refcnt
  {
    At(Goto(s, p, ForkPage(c, i + 1)), c, s.procs[c].(pc := Embryo(p, None)))
      .(k := Incref(s.k, s.procs[p].pt[i].pa))
  }

  ghost function ForkDoneStep(s: State, p: Pid): (State, Label)
    requires TypeOk(s) && Enabled(s, DoForkDone(p))
  {
    (Born(s, p, s.procs[p].pc.child), Forked(p, s.procs[p].pc.child))
  }

  function Born(s: State, p: Pid, c: Pid): State
    requires p in s.procs && c in s.procs
  {
    At(Goto(s, p, User), c, s.procs[c].(pc := User, np := s.procs[p].np))
  }

  // uvmalloc and uvmunmap

  ghost function SbrkStep(s: State, p: Pid, target: Vpn): (State, Label)
    requires TypeOk(s) && Enabled(s, Sbrk(p, target))
  {
    var pr := s.procs[p];
    if target >= pr.np then (Goto(s, p, Grow(pr.np, target)), Tau)
    else (At(s, p, Proc(Unmap(target, pr.np, false), pr.pt, target)), Shrank(p, target))
  }

  ghost function GrowMapStep(s: State, p: Pid, mapped: bool): (State, Label)
    requires TypeOk(s) && Enabled(s, DoGrowMap(p, mapped))
  {
    var pr := s.procs[p];
    (if mapped then At(s, p, Mapped(pr)) else Goto(s, p, GrowDrop(pr.pc.cur, pr.pc.mem)), Tau)
  }

  /** mappages installs the page that uvmalloc has allocated. */
  function Mapped(pr: Proc): Proc
    requires pr.pc.GrowMap?
  {
    pr.(pc := Grow(pr.pc.cur + 1, pr.pc.target), pt := pr.pt[pr.pc.cur := Leaf(pr.pc.mem, true, true, false, false)])
  }

  ghost function GrowDoneStep(s: State, p: Pid): (State, Label)
    requires Enabled(s, DoGrowDone(p))
  {
    (At(s, p, s.procs[p].(pc := User, np := s.procs[p].pc.target)), Grew(p, s.procs[p].pc.target))
  }

  ghost function UnmapDoneStep(s: State, p: Pid): (State, Label)
    requires Enabled(s, DoUnmapDone(p))
  {
    (if s.procs[p].pc.exiting then s.(procs := s.procs - {p}) else Goto(s, p, User), Tau)
  }

  ghost function KernelAllocStep(s: State): State
    requires Enabled(s, KernelAlloc)
  {
    s.(k := Kalloc(s.k), kern := s.kern + {s.k.free[0]})
  }

  ghost function KernelFreeStep(s: State, pa: Pa): State
    requires TypeOk(s) && Enabled(s, KernelFree(pa))
  {
    s.(k := Decref(s.k, pa), kern := s.kern - {pa}, kpush := s.kpush + {pa})
  }

  /** uvmunmap drops the page before it clears the entry. */
  ghost function UnmapStep(s: State, p: Pid): (State, Label)
    requires TypeOk(s) && Enabled(s, DoUnmap(p))
  {
    var Unmap(cur, hi, ex) := s.procs[p].pc;
    var pa := s.procs[p].pt[cur].pa;
    var k' := Decref(s.k, pa);
    (Goto(s, p, if k'.refcnt[pa] > 0 then UnmapClear(cur, hi, ex) else UnmapPush(cur, hi, ex)).(k := k'), Tau)
  }

  ghost function ClearStep(s: State, p: Pid): (State, Label)
    requires TypeOk(s) && Enabled(s, DoClear(p))
  {
    var pr := s.procs[p];
    var UnmapClear(cur, hi, ex) := pr.pc;
    (At(s, p, pr.(pc := Unmap(cur + 1, hi, ex), pt := pr.pt - {cur})), Tau)
  }

  // ---------------------------------------------------------------- references

  /** The things that hold one counted reference to a page. */
  datatype Token = Pte(p: Pid, v: Vpn) | Hold(p: Pid) | Kernel(pa: Pa)

  datatype Actor = ByProc(p: Pid) | ByKernel(pa: Pa)

  /** An entry whose reference is counted: not the child's entry that uvmcopy has yet to count,
      and not the entry that uvmunmap has already dropped but not yet cleared. */
  predicate Counted(pr: Proc, v: Vpn) {
    && v in pr.pt
    && !(pr.pc.Embryo? && pr.pc.uncounted == Some(v))
    && !((pr.pc.UnmapPush? || pr.pc.UnmapClear?) && pr.pc.cur == v)
  }

  function Held(pr: Proc): Option<Pa> {
    match pr.pc
    case FaultCopy(_, _, mem, _) => Some(mem)
    case FaultDrop(_, _, old_pa) => Some(old_pa)
    case GrowMap(_, _, mem) => Some(mem)
    case GrowDrop(_, mem) => Some(mem)
    case _ => None
  }

  function Pushing(pr: Proc): Option<Pa> {
    match pr.pc
    case FaultPush(_, _, old_pa) => Some(old_pa)
    case GrowPush(_, mem) => Some(mem)
    case UnmapPush(cur, _, _) => if cur in pr.pt then Some(pr.pt[cur].pa) else None
    case _ => None
  }

  function PageOf(s: State, t: Token): Option<Pa> {
    match t
    case Pte(p, v) => if p in s.procs && Counted(s.procs[p], v) then Some(s.procs[p].pt[v].pa) else None
    case Hold(p) => if p in s.procs then Held(s.procs[p]) else None
    case Kernel(pa) => if pa in s.kern then Some(pa) else None
  }

  function PushOf(s: State, a: Actor): Option<Pa> {
    match a
    case ByProc(p) => if p in s.procs then Pushing(s.procs[p]) else None
    case ByKernel(pa) => if pa in s.kpush then Some(pa) else None
  }

  ghost function Own(s: State): (own: map<Token, Pa>)
    ensures forall t :: t in own <==> PageOf(s, t).Some?
    ensures forall t :: t in own ==> own[t] == PageOf(s, t).value
  {
    var ptes := set p, v | p in s.procs && v in s.procs[p].pt :: Pte(p, v);
    var holds := set p | p in s.procs :: Hold(p);
    var kernel := set pa | pa in s.kern :: Kernel(pa);
    map t | t in ptes + holds + kernel && PageOf(s, t).Some? :: PageOf(s, t).value
  }

  ghost function Transit(s: State): (m: map<Actor, Pa>)
    ensures forall a :: a in m <==> PushOf(s, a).Some?
    ensures forall a :: a in m ==> m[a] == PushOf(s, a).value
  {
    var procs := set p | p in s.procs :: ByProc(p);
    var kernel := set pa | pa in s.kpush :: ByKernel(pa);
    map a | a in procs + kernel && PushOf(s, a).Some? :: PushOf(s, a).value
  }

  // ---------------------------------------------------------------- invariant

  ghost predicate Inv(s: State) {
    && TypeOk(s)
    && Consistent(s.k, Own(s), Transit(s))
    && (forall p :: p in s.procs ==> EntriesOk(s, p) && HoldOk(s, p) && CopyOk(s, p) && ForkOk(s, p))
    && (forall pa :: pa in s.kern ==> Sole(Own(s), Kernel(pa)))
  }

  /** A writable entry is not copy-on-write and is the only reference to its page. So is the
      entry whose counter handle_cow_fault has found to be 1. */
  ghost predicate EntriesOk(s: State, p: Pid)
    requires p in s.procs
  {
    var pr := s.procs[p];
    && (forall v :: Counted(pr, v) && pr.pt[v].w ==> !pr.pt[v].cow && Sole(Own(s), Pte(p, v)))
    && (pr.pc.FaultUpgrade? ==> Sole(Own(s), Pte(p, pr.pc.v)))
  }

  /** A page just allocated is referred to by the thread that allocated it, and nobody else. */
  ghost predicate HoldOk(s: State, p: Pid)
    requires p in s.procs
  {
    var pc := s.procs[p].pc;
    pc.FaultCopy? || pc.GrowMap? || pc.GrowDrop? ==> Sole(Own(s), Hold(p))
  }

  /** The part copied so far equals the source, as it is now. */
  ghost predicate CopyOk(s: State, p: Pid)
    requires p in s.procs
  {
    var pr := s.procs[p];
    pr.pc.FaultCopy? && pr.pc.v in pr.pt && pr.pc.mem in s.mem && pr.pt[pr.pc.v].pa in s.mem ==>
      SamePrefix(s.mem[pr.pc.mem], s.mem[pr.pt[pr.pc.v].pa], pr.pc.k)
  }

  ghost predicate SamePrefix(a: Page, b: Page, k: nat) {
    k <= |a| && k <= |b| && forall j :: 0 <= j < k ==> a[j] == b[j]
  }

  ghost predicate ForkOk(s: State, p: Pid)
    requires p in s.procs
  {
    match s.procs[p].pc
    case ForkPage(c, i) => CopyOf(s, p, c, None, i)
    case ForkIncref(c, i) => CopyOf(s, p, c, Some(i), i + 1)
    case _ => true
  }

  /** The child's table is the parent's, below page n, and no entry of it is writable. */
  ghost predicate CopyOf(s: State, p: Pid, c: Pid, uncounted: Option<Vpn>, n: nat)
    requires p in s.procs
  {
    && c in s.procs
    && s.procs[c].pc == Embryo(p, uncounted)
    && UpTo(s.procs[c].pt, n)
    && forall j :: 0 <= j < n ==> j in s.procs[p].pt && s.procs[c].pt[j] == s.procs[p].pt[j] && !s.procs[p].pt[j].w
  }

  // ---------------------------------------------------------------- eager copying

  /** The reference model: every process has its own copy of every page, and fork copies them
      all. `w` says that the program may store to the page. */
  datatype EPage = EPage(data: Page, u: bool, w: bool, x: bool)
  type Space = map<Vpn, EPage>
  type Eager = map<Pid, Space>

  predicate MayStore(e: Eager, p: Pid, v: Vpn) {
    p in e && v in e[p] && e[p][v].u && e[p][v].w
  }

  /** One step of the reference model. A kill or a refused copyout is allowed when the access is
      not permitted, or for want of memory. */
  ghost predicate EagerStep(e: Eager, l: Label, e': Eager) {
    match l
    case Tau => e' == e
    case Stored(p, v, off, data) =>
      && MayStore(e, p, v)
      && off + |data| <= |e[p][v].data|
      && e' == e[p := e[p][v := e[p][v].(data := Splice(e[p][v].data, off, data))]]
    case Forked(p, c) => p in e && c !in e && e' == e[c := e[p]]
    case Grew(p, np) => p in e && p in e' && e' == e[p := e'[p]] && Extends(e[p], np, e'[p])
    case Shrank(p, np) => p in e && p in e' && e' == e[p := e'[p]] && Restricts(e[p], np, e'[p])
    case Exited(p) => p in e && e' == e - {p}
    case KilledBad(p, v) => p in e && !MayStore(e, p, v) && e' == e - {p}
    case KilledOom(p) => p in e && e' == e - {p}
    case RefusedBad(p, v) => p in e && !MayStore(e, p, v) && e' == e
    case RefusedOom(p) => p in e && e' == e
  }

  /** The old pages stay; the new ones are writable and hold anything. */
  ghost predicate Extends(m: Space, np: nat, m': Space) {
    && (forall v: Vpn :: v in m' <==> v < np)
    && (forall v :: v in m ==> v in m' && m'[v] == m[v])
    && (forall v :: v in m' && v !in m ==> m'[v].u && m'[v].w && |m'[v].data| == PGSIZE)
  }

  ghost predicate Restricts(m: Space, np: nat, m': Space) {
    && (forall v: Vpn :: v in m' <==> v in m && v < np)
    && (forall v :: v in m' ==> m'[v] == m[v])
  }

  predicate Visible(pr: Proc) {
    && !pr.pc.Embryo?
    && !((pr.pc.Unmap? || pr.pc.UnmapPush? || pr.pc.UnmapClear?) && pr.pc.exiting)
  }

  /** The state s, with its shared pages, shows to programs the memory e. */
  ghost predicate Shows(s: State, e: Eager) {
    && (forall p :: p in e <==> p in s.procs && Visible(s.procs[p]))
    && (forall p :: p in e ==> ShowsProc(s, s.procs[p], e[p]))
  }

  ghost predicate ShowsProc(s: State, pr: Proc, m: Space) {
    && (forall v: Vpn :: v in m <==> v < pr.np)
    && (forall v :: 0 <= v < pr.np ==> v in pr.pt && ShowsPage(s, pr.pt[v], m[v]))
  }

  ghost predicate ShowsPage(s: State, l: Leaf, ep: EPage) {
    l.pa in s.mem && ep == EPage(s.mem[l.pa], l.u, l.w || l.cow, l.x)
  }
}
