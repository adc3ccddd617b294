/** What bread returns, told by the steps of a run of the buffer cache: who asked for which block, and
    what was stored in it last. */
module CacheReads {
  import opened BufferCache
  import opened CacheMachine
  import opened CacheRuns

  /** Before step i, thread x has the buffer that it asked for at step g, which is one for block k. */
  ghost predicate Asked(ls: seq<Step>, g: nat, i: nat, x: nat, k: (nat, nat)) {
    g < i <= |ls| && ls[g].Get? && ls[g].x == x && ls[g].key == k && forall j :: g < j < i ==> ls[j] != Drop(x)
  }

  /** Step j stores v into block k. */
  ghost predicate Stores(ls: seq<Step>, j: nat, k: (nat, nat), v: Block) {
    j < |ls| && ls[j].Modify? && ls[j].v == v && exists g: nat :: Asked(ls, g, j, ls[j].x, k)
  }

  lemma StepClaim(s: State, l: Step, s': State, x: nat)
    requires Next(s, l, s')
    ensures x in s.claims && l != Drop(x) ==> x in s'.claims && s'.claims[x].key == s.claims[x].key
    ensures x in s'.claims ==>
      l != Drop(x) && if x in s.claims then s'.claims[x].key == s.claims[x].key
                      else l.Get? && l.x == x && s'.claims[x].key == l.key
    ensures l.Get? && l.x == x ==> x !in s.claims && x in s'.claims && s'.claims[x].key == l.key
  {
    hide WellFormed, Missing, Victim, Hit, Moved;
  }

  lemma {:induction false} ClaimOf(ss: seq<State>, ls: seq<Step>, i: nat, x: nat) returns (g: nat)
    requires Run(ss, ls) && i < |ss| && x in ss[i].claims
    ensures Asked(ls, g, i, x, ss[i].claims[x].key)
    decreases i
  {
    hide Next;
    if i == 0 {
      assert false;
    }
    StepClaim(ss[i - 1], ls[i - 1], ss[i], x);
    if x in ss[i - 1].claims {
      g := ClaimOf(ss, ls, i - 1, x);
    } else {
      g := i - 1;
    }
  }

  lemma {:induction false} ClaimKey(ss: seq<State>, ls: seq<Step>, g: nat, i: nat, x: nat, k: (nat, nat))
    requires Run(ss, ls) && Asked(ls, g, i, x, k)
    ensures x in ss[i].claims && ss[i].claims[x].key == k
    decreases i
  {
    hide Next, Init;
    StepClaim(ss[i - 1], ls[i - 1], ss[i], x);
    if g < i - 1 {
      ClaimKey(ss, ls, g, i - 1, x, k);
    }
  }

  lemma StepNewest(s: State, l: Step, s': State, k: (nat, nat))
    requires Next(s, l, s') && k in s.newest
    ensures k in s'.newest
    ensures s'.newest[k] == if l.Modify? && l.x in s.claims && s.claims[l.x].key == k then l.v else s.newest[k]
  {
    hide WellFormed, Missing, Victim, Hit, Moved;
  }

  /** `newest` is what was stored last. */
  lemma {:induction false} LastStored(ss: seq<State>, ls: seq<Step>, i: nat, k: (nat, nat), j: nat, v: Block)
    requires Run(ss, ls) && j < i < |ss| && k in ss[0].disk && Stores(ls, j, k, v)
    requires forall m, w :: j < m < i ==> !Stores(ls, m, k, w)
    ensures k in ss[i].newest && ss[i].newest[k] == v
    decreases i
  {
    hide Next, Init;
    HasNewest(ss, ls, i - 1, k);
    StepNewest(ss[i - 1], ls[i - 1], ss[i], k);
    if j == i - 1 {
      var g: nat :| Asked(ls, g, j, ls[j].x, k);
      ClaimKey(ss, ls, g, j, ls[j].x, k);
    } else {
      LastStored(ss, ls, i - 1, k, j, v);
      if ss[i].newest[k] != ss[i - 1].newest[k] {
        IsStore(ss, ls, i - 1, k);
      }
    }
  }

  lemma IsStore(ss: seq<State>, ls: seq<Step>, i: nat, k: (nat, nat))
    requires Run(ss, ls) && i < |ls| && ls[i].Modify? && ls[i].x in ss[i].claims && ss[i].claims[ls[i].x].key == k
    ensures Stores(ls, i, k, ls[i].v)
  {
    hide Next, Init;
    var g := ClaimOf(ss, ls, i, ls[i].x);
  }

  lemma {:induction false} HasNewest(ss: seq<State>, ls: seq<Step>, i: nat, k: (nat, nat))
    requires Run(ss, ls) && i < |ss| && k in ss[0].disk
    ensures k in ss[i].newest
  {
    hide Next;
    if i > 0 {
      HasNewest(ss, ls, i - 1, k);
      StepNewest(ss[i - 1], ls[i - 1], ss[i], k);
    }
  }

  lemma {:induction false} NeverStored(ss: seq<State>, ls: seq<Step>, i: nat, k: (nat, nat))
    requires Run(ss, ls) && i < |ss| && k in ss[0].disk && forall m, w :: 0 <= m < i ==> !Stores(ls, m, k, w)
    ensures k in ss[i].newest && ss[i].newest[k] == ss[0].disk[k]
  {
    hide Next, Stores;
    if i > 0 {
      NeverStored(ss, ls, i - 1, k);
      StepNewest(ss[i - 1], ls[i - 1], ss[i], k);
      if ss[i].newest[k] != ss[i - 1].newest[k] {
        IsStore(ss, ls, i - 1, k);
      }
    }
  }

  /** A thread that has bread's buffer for block k finds in it what the last store into the block, by
      whomever and however long ago, put there; or what the disk had at the start. This is so as long
      as every release of the block finds it pinned or equal to the disk. */
  lemma BreadReturns(ss: seq<State>, ls: seq<Step>, g: nat, i: nat, x: nat, k: (nat, nat))
    requires Run(ss, ls) && Asked(ls, g, i, x, k) && Reads(ss[i], x) && k != BLANK && k in ss[0].disk
    requires CleanReleases(ss, ls, k, i)
    ensures x in ss[i].claims && ss[i].claims[x].b < |ss[i].c.bufs|
    ensures var data := ss[i].c.bufs[ss[i].claims[x].b].data;
      && (forall j: nat, v :: j < i && Stores(ls, j, k, v) && Last(ls, j, i, k) ==> data == v)
      && ((forall m, w :: 0 <= m < i ==> !Stores(ls, m, k, w)) ==> data == ss[0].disk[k])
  {
    hide Next, Init, Stores, CleanReleases;
    ClaimKey(ss, ls, g, i, x, k);
    BreadNewest(ss, ls, i, x);
    forall j: nat, v | j < i && Stores(ls, j, k, v) && Last(ls, j, i, k)
      ensures ss[i].newest[k] == v
    {
      LastStored(ss, ls, i, k, j, v);
    }
    if forall m, w :: 0 <= m < i ==> !Stores(ls, m, k, w) {
      NeverStored(ss, ls, i, k);
    }
  }

  /** Nothing is stored into block k between steps j and i. */
  ghost predicate Last(ls: seq<Step>, j: nat, i: nat, k: (nat, nat)) {
    forall m, w :: j < m < i ==> !Stores(ls, m, k, w)
  }
}
