/** The reference-counted page allocator's bookkeeping, as values.

    A `Kmem` is the pair of counters and free list that kalloc.c keeps behind `kmem.lock`.
    Each of its four functions is one critical section of that file. Who refers to a page is
    given from outside, as a map `own` from reference tokens (a page-table entry, a kernel
    pointer, ...) to pages; `transit` gives the pages that are between the two critical
    sections of kfree, and so on no list. */
module Frames {
  import opened Lists

  type Pa = nat

  datatype Kmem = Kmem(refcnt: map<Pa, int>, free: seq<Pa>)

  /** kalloc: pop the free list and set the count to 1. */
  function Kalloc(k: Kmem): Kmem
    requires k.free != []
  {
    Kmem(k.refcnt[k.free[0] := 1], k.free[1..])
  }

  function Incref(k: Kmem, pa: Pa): Kmem
    requires pa in k.refcnt
  {
    k.(refcnt := k.refcnt[pa := k.refcnt[pa] + 1])
  }

  /** The first critical section of kfree. */
  function Decref(k: Kmem, pa: Pa): Kmem
    requires pa in k.refcnt
  {
    k.(refcnt := k.refcnt[pa := k.refcnt[pa] - 1])
  }

  /** The second critical section of kfree. */
  function Push(k: Kmem, pa: Pa): Kmem {
    k.(free := [pa] + k.free)
  }

  ghost function OwnersOf<T>(own: map<T, Pa>, pa: Pa): set<T> {
    set t | t in own && own[t] == pa
  }

  ghost function Count<T>(own: map<T, Pa>, pa: Pa): nat {
    |OwnersOf(own, pa)|
  }

  ghost predicate Injective<A, B>(m: map<A, B>) {
    forall a, b :: a in m && b in m && m[a] == m[b] ==> a == b
  }

  /** No other token refers to the page of `t`. */
  ghost predicate Sole<T(!new)>(own: map<T, Pa>, t: T) {
    t in own && forall u :: u in own && own[u] == own[t] ==> u == t
  }

  /** The allocator invariant. Every page is in exactly one of three places: referred to, and
      then its counter is the number of references; on the free list, once; or inside kfree, by
      one actor only. A page that nobody refers to has a counter of at most 0: it is -1 after
      boot, because kinit frees pages whose counter is 0, and 0 later. */
  ghost predicate Consistent<T, A>(k: Kmem, own: map<T, Pa>, transit: map<A, Pa>) {
    && NoRepeat(k.free)
    && Injective(transit)
    && (forall t :: t in own ==> own[t] in k.refcnt)
    && (forall a :: a in transit ==> transit[a] in k.refcnt)
    && (forall pa :: pa in k.free ==> pa in k.refcnt)
    && (forall pa :: pa in k.refcnt ==> PageConsistent(k, own, transit, pa))
  }

  ghost predicate PageConsistent<T, A>(k: Kmem, own: map<T, Pa>, transit: map<A, Pa>, pa: Pa)
    requires pa in k.refcnt
  {
    if Count(own, pa) > 0 then
      k.refcnt[pa] == Count(own, pa) && pa !in k.free && pa !in transit.Values
    else
      k.refcnt[pa] <= 0 && (pa in k.free <==> pa !in transit.Values)
  }

  /** The same outside kfree, where no page is in transit. Page 0, which pointers use for none, is
      not one of the allocator's. */
  ghost predicate Steady<T>(k: Kmem, own: map<T, Pa>) {
    var nowhere: map<T, Pa> := map[];
    0 !in k.refcnt && Consistent(k, own, nowhere)
  }

  lemma CountPositive<T>(own: map<T, Pa>, pa: Pa)
    ensures Count(own, pa) > 0 <==> exists t :: t in own && own[t] == pa
  {
    if t :| t in own && own[t] == pa {
      assert t in OwnersOf(own, pa);
    }
    if Count(own, pa) > 0 {
      var t :| t in OwnersOf(own, pa);
    }
  }

  /** In a consistent allocator, the counter of a referred page is 1 exactly when it has one owner. */
  lemma CounterMeansSole<T(!new), A>(k: Kmem, own: map<T, Pa>, transit: map<A, Pa>, t: T)
    requires Consistent(k, own, transit) && t in own
    ensures k.refcnt[own[t]] == 1 <==> Sole(own, t)
  {
    CountPositive(own, own[t]);
    assert PageConsistent(k, own, transit, own[t]);
    SoleIffCountOne(own, t);
  }

  /** One owner is a count of 1. */
  lemma SoleIffCountOne<T(!new)>(own: map<T, Pa>, t: T)
    requires t in own
    ensures Sole(own, t) <==> Count(own, own[t]) == 1
  {
    var os := OwnersOf(own, own[t]);
    assert t in os;
    if Sole(own, t) {
      assert os == {t};
    }
    if |os| == 1 {
      assert |os - {t}| == 0;
      forall u | u in own && own[u] == own[t]
        ensures u == t
      {
        assert u in os;
      }
    }
  }

  /** How one changed token changes the counts. */
  lemma CountInsert<T>(own: map<T, Pa>, t: T, pa: Pa, x: Pa)
    requires t !in own
    ensures Count(own[t := pa], x) == Count(own, x) + if x == pa then 1 else 0
  {
    var own' := own[t := pa];
    var now, was := OwnersOf(own', x), OwnersOf(own, x) + if x == pa then {t} else {};
    forall u
      ensures u in now <==> u in was
    {
    }
    assert now == was;
  }

  lemma CountRemove<T>(own: map<T, Pa>, t: T, x: Pa)
    requires t in own
    ensures Count(own - {t}, x) == Count(own, x) - if x == own[t] then 1 else 0
  {
    if x == own[t] {
      assert OwnersOf(own, x) == OwnersOf(own - {t}, x) + {t};
    } else {
      assert OwnersOf(own, x) == OwnersOf(own - {t}, x);
    }
  }

  /** A reference to a page that nobody refers to leaves sole owners alone. */
  lemma SoleInsert<T(!new)>(own: map<T, Pa>, t: T, pa: Pa)
    requires t !in own && forall u :: u in own ==> own[u] != pa
    ensures forall u :: Sole(own, u) ==> Sole(own[t := pa], u)
    ensures Sole(own[t := pa], t)
  {
  }

  lemma KallocKeeps<T(!new), A>(k: Kmem, own: map<T, Pa>, transit: map<A, Pa>, t: T)
    requires Consistent(k, own, transit) && k.free != [] && t !in own
    ensures Consistent(Kalloc(k), own[t := k.free[0]], transit)
    ensures k.free[0] in k.refcnt && Sole(own[t := k.free[0]], t)
    ensures forall u :: u in own ==> own[u] != k.free[0]
  {
    var pa, k', own' := k.free[0], Kalloc(k), own[t := k.free[0]];
    assert k.free == [pa] + k'.free;
    assert PageConsistent(k, own, transit, pa);
    CountPositive(own, pa);
    hide OwnersOf, Count;
    forall x | x in k'.refcnt
      ensures PageConsistent(k', own', transit, x)
    {
      assert PageConsistent(k, own, transit, x);
      CountInsert(own, t, pa, x);
    }
  }

  lemma IncrefKeeps<T, A>(k: Kmem, own: map<T, Pa>, transit: map<A, Pa>, t: T, pa: Pa)
    requires Consistent(k, own, transit) && t !in own && exists u :: u in own && own[u] == pa
    ensures Consistent(Incref(k, pa), own[t := pa], transit)
  {
    CountPositive(own, pa);
    forall x | x in k.refcnt
      ensures PageConsistent(Incref(k, pa), own[t := pa], transit, x)
    {
      assert PageConsistent(k, own, transit, x);
      CountInsert(own, t, pa, x);
    }
  }

  /** Dropping a reference: the page goes into transit exactly when it was the last one. */
  lemma DecrefKeeps<T(!new), A>(k: Kmem, own: map<T, Pa>, transit: map<A, Pa>, t: T, a: A)
    requires Consistent(k, own, transit) && t in own && a !in transit
    ensures Decref(k, own[t]).refcnt[own[t]] > 0 <==> !Sole(own, t)
    ensures !Sole(own, t) ==> Consistent(Decref(k, own[t]), own - {t}, transit)
    ensures Sole(own, t) ==> Consistent(Decref(k, own[t]), own - {t}, transit[a := own[t]])
  {
    var pa := own[t];
    var k', own' := Decref(k, pa), own - {t};
    var transit' := if Sole(own, t) then transit[a := pa] else transit;
    CountPositive(own, pa);
    SoleIffCountOne(own, t);
    assert PageConsistent(k, own, transit, pa);
    assert transit'.Values == transit.Values + if Sole(own, t) then {pa} else {} by {
      forall x | x in transit.Values
        ensures x in transit'.Values
      {
        var b :| b in transit && transit[b] == x;
        assert b in transit' && transit'[b] == x;
      }
      if Sole(own, t) {
        assert a in transit' && transit'[a] == pa;
      }
    }
    forall x | x in k'.refcnt
      ensures PageConsistent(k', own', transit', x)
    {
      assert PageConsistent(k, own, transit, x);
      CountRemove(own, t, x);
    }
    assert forall b :: b in transit ==> transit[b] != pa;
  }

  lemma PushKeeps<T, A>(k: Kmem, own: map<T, Pa>, transit: map<A, Pa>, a: A)
    requires Consistent(k, own, transit) && a in transit
    ensures Consistent(Push(k, transit[a]), own, transit - {a})
  {
    var pa := transit[a];
    assert PageConsistent(k, own, transit, pa);
    assert pa in transit.Values;
    var transit' := transit - {a};
    forall x | x in k.refcnt
      ensures PageConsistent(Push(k, pa), own, transit', x)
    {
      assert PageConsistent(k, own, transit, x);
      assert x in transit'.Values <==> x in transit.Values && x != pa by {
        if x in transit.Values && x != pa {
          var b :| b in transit && transit[b] == x;
          assert b in transit' && transit'[b] == x;
        }
      }
    }
  }

  /** Two tokens exchange their pages: no count changes. */
  lemma ExchangeKeeps<T(!new), A>(k: Kmem, own: map<T, Pa>, transit: map<A, Pa>, t: T, u: T)
    requires Consistent(k, own, transit) && t in own && u in own && t != u
    ensures Consistent(k, own[t := own[u]][u := own[t]], transit)
  {
    var own' := own[t := own[u]][u := own[t]];
    forall x | x in k.refcnt
      ensures PageConsistent(k, own', transit, x)
    {
      assert PageConsistent(k, own, transit, x);
      var rest: map<T, Pa> := own - {t, u};
      var was: map<T, Pa>, now: map<T, Pa> := rest[u := own[u]], rest[u := own[t]];
      assert own == was[t := own[t]];
      assert own' == now[t := own[u]];
      CountInsert(rest, u, own[u], x);
      CountInsert(was, t, own[t], x);
      CountInsert(rest, u, own[t], x);
      CountInsert(now, t, own[u], x);
    }
  }

  /** A reference handed from one token to another: no count changes. */
  lemma RenameKeeps<T(!new), A>(k: Kmem, own: map<T, Pa>, transit: map<A, Pa>, t: T, u: T)
    requires Consistent(k, own, transit) && t in own && u !in own
    ensures Consistent(k, (own - {t})[u := own[t]], transit)
  {
    var own' := (own - {t})[u := own[t]];
    forall x | x in k.refcnt
      ensures PageConsistent(k, own', transit, x)
    {
      assert PageConsistent(k, own, transit, x);
      CountRemove(own, t, x);
      CountInsert(own - {t}, u, own[t], x);
    }
  }
}
