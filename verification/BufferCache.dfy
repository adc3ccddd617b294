/** The buffer cache of bio.c: buffers on a circular doubly linked list in order of last use. */
module BufferCache {
  import opened Lists

  type Block = nat

  datatype Buf = Buf(dev: nat, blockno: nat, valid: bool, refcnt: nat, data: Block)

  /** The buffers, and their numbers from the most to the least recently used. */
  datatype Cache = Cache(bufs: seq<Buf>, order: seq<nat>)

  // ---------------------------------------------------------------- what bget and brelse do

  predicate Matches(c: Cache, i: nat, dev: nat, blockno: nat)
    requires i < |c.order| && c.order[i] < |c.bufs|
  {
    c.bufs[c.order[i]].dev == dev && c.bufs[c.order[i]].blockno == blockno
  }

  ghost predicate WellFormed(c: Cache) {
    && |c.order| == |c.bufs|
    && (forall i :: 0 <= i < |c.order| ==> c.order[i] < |c.bufs|)
    && NoRepeat(c.order)
  }

  /** Buffer b is the first on the list for the block. */
  ghost predicate Hit(c: Cache, dev: nat, blockno: nat, b: nat)
    requires WellFormed(c)
  {
    exists i :: 0 <= i < |c.order| && c.order[i] == b && Matches(c, i, dev, blockno)
      && forall j :: 0 <= j < i ==> !Matches(c, j, dev, blockno)
  }

  ghost predicate Missing(c: Cache, dev: nat, blockno: nat)
    requires WellFormed(c)
  {
    forall i :: 0 <= i < |c.order| ==> !Matches(c, i, dev, blockno)
  }

  /** Buffer b is the least recently used one that nobody refers to. */
  ghost predicate Victim(c: Cache, b: nat)
    requires WellFormed(c)
  {
    exists i :: 0 <= i < |c.order| && c.order[i] == b && c.bufs[b].refcnt == 0
      && forall j :: i < j < |c.order| ==> c.bufs[c.order[j]].refcnt > 0
  }

  ghost predicate AllBusy(c: Cache)
    requires WellFormed(c)
  {
    forall i :: 0 <= i < |c.order| ==> c.bufs[c.order[i]].refcnt > 0
  }

  function Ref(c: Cache, b: nat): Cache
    requires b < |c.bufs|
  {
    c.(bufs := c.bufs[b := c.bufs[b].(refcnt := c.bufs[b].refcnt + 1)])
  }

  function Recycle(c: Cache, b: nat, dev: nat, blockno: nat): Cache
    requires b < |c.bufs|
  {
    c.(bufs := c.bufs[b := Buf(dev, blockno, false, 1, c.bufs[b].data)])
  }

  /** The order after b has become the most recently used. */
  ghost predicate Moved(order: seq<nat>, order': seq<nat>, b: nat) {
    exists i :: 0 <= i < |order| && order[i] == b && order' == [b] + order[..i] + order[i + 1..]
  }

  // ---------------------------------------------------------------- the list

  /** The list seen from the head, which is number n, and back to it. */
  function Stop(order: seq<nat>, n: nat, i: nat): nat
    requires i <= |order| + 1
  {
    if 1 <= i <= |order| then order[i - 1] else n
  }

  ghost predicate Distinct(order: seq<nat>, n: nat) {
    && (forall i :: 0 <= i < |order| ==> order[i] < n)
    && NoRepeat(order)
  }

  /** Following next from the head visits the buffers of order, and following prev visits them
      backwards. */
  ghost predicate Ring(next: seq<nat>, prev: seq<nat>, order: seq<nat>, n: nat) {
    && |next| == |prev| == n + 1 && Distinct(order, n)
    && (forall i :: 0 <= i <= |order| ==> next[Stop(order, n, i)] == Stop(order, n, i + 1))
    && (forall i :: 1 <= i <= |order| + 1 ==> prev[Stop(order, n, i)] == Stop(order, n, i - 1))
  }

  lemma RingEnds(next: seq<nat>, prev: seq<nat>, order: seq<nat>, n: nat)
    requires Ring(next, prev, order, n)
    ensures |next| == |prev| == n + 1 && Distinct(order, n)
    ensures next[n] == (if order == [] then n else order[0]) <= n
    ensures prev[n] == (if order == [] then n else order[|order| - 1]) <= n
  {
    assert next[Stop(order, n, 0)] == Stop(order, n, 1);
    assert prev[Stop(order, n, |order| + 1)] == Stop(order, n, |order|);
  }

  lemma RingMiddle(next: seq<nat>, prev: seq<nat>, order: seq<nat>, n: nat, x: nat)
    requires Ring(next, prev, order, n) && x < |order|
    ensures |next| == |prev| == n + 1 && order[x] < n
    ensures var b := order[x];
      && next[b] == Stop(order, n, x + 2) == (if x + 1 < |order| then order[x + 1] else n) <= n
      && prev[b] == Stop(order, n, x) == (if x > 0 then order[x - 1] else n) <= n
  {
    assert next[Stop(order, n, x + 1)] == Stop(order, n, x + 2);
    assert prev[Stop(order, n, x + 1)] == Stop(order, n, x);
  }

  /** The new links when b is put in front of the list. */
  ghost predicate PushedFront(next: seq<nat>, prev: seq<nat>, next': seq<nat>, prev': seq<nat>, n: nat, b: nat)
    requires |next| == |prev| == n + 1 && b < n && next[n] <= n
  {
    next' == next[b := next[n]][n := b] && prev' == prev[b := n][next[n] := b]
  }

  lemma PushFront(next: seq<nat>, prev: seq<nat>, order: seq<nat>, n: nat, b: nat, next': seq<nat>, prev': seq<nat>)
    requires Ring(next, prev, order, n) && b < n && b !in order && next[n] <= n
    requires PushedFront(next, prev, next', prev', n, b)
    ensures Ring(next', prev', [b] + order, n)
  {
    var order' := [b] + order;
    RingEnds(next, prev, order, n);
    forall i | 0 <= i <= |order'|
      ensures next'[Stop(order', n, i)] == Stop(order', n, i + 1)
    {
      if i > 1 {
        assert next[Stop(order, n, i - 1)] == Stop(order, n, i);
      }
    }
    forall i | 1 <= i <= |order'| + 1
      ensures prev'[Stop(order', n, i)] == Stop(order', n, i - 1)
    {
      if i > 2 {
        assert prev[Stop(order, n, i - 1)] == Stop(order, n, i - 2);
      }
    }
  }

  lemma Unlink(next: seq<nat>, prev: seq<nat>, order: seq<nat>, n: nat, x: nat)
    requires Ring(next, prev, order, n) && x < |order|
    ensures var b := order[x];
      && next[b] <= n && prev[b] <= n
      && Ring(next[prev[b] := next[b]], prev[next[b] := prev[b]], order[..x] + order[x + 1..], n)
  {
    RingMiddle(next, prev, order, n, x);
    var b, order' := order[x], order[..x] + order[x + 1..];
    var next', prev' := next[prev[b] := next[b]], prev[next[b] := prev[b]];
    forall i | 0 <= i <= |order'|
      ensures next'[Stop(order', n, i)] == Stop(order', n, i + 1)
    {
      UnlinkNext(next, prev, order, n, x, i);
    }
    forall i | 1 <= i <= |order'| + 1
      ensures prev'[Stop(order', n, i)] == Stop(order', n, i - 1)
    {
      UnlinkPrev(next, prev, order, n, x, i);
    }
  }

  lemma StopsDiffer(order: seq<nat>, n: nat, i: nat, j: nat)
    requires Distinct(order, n) && i <= |order| && j <= |order| && i != j
    ensures Stop(order, n, i) != Stop(order, n, j)
  {
  }

  lemma UnlinkNext(next: seq<nat>, prev: seq<nat>, order: seq<nat>, n: nat, x: nat, i: nat)
    requires Ring(next, prev, order, n) && x < |order| && i < |order|
    ensures var b, order' := order[x], order[..x] + order[x + 1..];
      prev[b] <= n && next[prev[b] := next[b]][Stop(order', n, i)] == Stop(order', n, i + 1)
  {
    RingMiddle(next, prev, order, n, x);
    var k := if i <= x then i else i + 1;
    assert next[Stop(order, n, k)] == Stop(order, n, k + 1);
    if k != x {
      StopsDiffer(order, n, k, x);
    }
  }

  lemma UnlinkPrev(next: seq<nat>, prev: seq<nat>, order: seq<nat>, n: nat, x: nat, i: nat)
    requires Ring(next, prev, order, n) && x < |order| && 1 <= i <= |order|
    ensures var b, order' := order[x], order[..x] + order[x + 1..];
      next[b] <= n && prev[next[b] := prev[b]][Stop(order', n, i)] == Stop(order', n, i - 1)
  {
    RingMiddle(next, prev, order, n, x);
    var k := if i <= x then i else i + 1;
    assert prev[Stop(order, n, k)] == Stop(order, n, k - 1);
    if k != x + 2 {
      if x + 2 <= |order| && k <= |order| {
        StopsDiffer(order, n, k, x + 2);
      }
    }
  }

  lemma AllListed(c: Cache)
    requires Distinct(c.order, |c.bufs|) && |c.order| == |c.bufs|
    ensures WellFormed(c) && BusyFrom(c, |c.order|)
  {
  }

  ghost predicate BusyFrom(c: Cache, i: nat)
    requires WellFormed(c)
  {
    forall j :: i <= j < |c.order| ==> c.bufs[c.order[j]].refcnt > 0
  }

  lemma BusyStep(c: Cache, i: nat)
    requires WellFormed(c) && i < |c.order| && BusyFrom(c, i + 1)
    ensures c.order[i] < |c.bufs|
    ensures if c.bufs[c.order[i]].refcnt == 0 then Victim(c, c.order[i]) else BusyFrom(c, i)
  {
  }

  lemma NoVictim(c: Cache)
    requires WellFormed(c) && BusyFrom(c, 0)
    ensures AllBusy(c)
  {
  }

  class Bcache {
    const n: nat
    const bufs: array<Buf>
    const next: array<nat>
    const prev: array<nat>
    ghost var order: seq<nat>

    ghost predicate Shape()
      reads this, next, prev
    {
      && bufs.Length == n && next.Length == prev.Length == n + 1 && next != prev
      && Ring(next[..], prev[..], order, n)
    }

    ghost predicate Valid()
      reads this, next, prev
    {
      Shape() && |order| == n
    }

    ghost function View(): Cache
      reads this, bufs
    {
      Cache(bufs[..], order)
    }

    /** binit. All buffers are on the list, free, and stand for block 0 of device 0. */
    constructor (n: nat)
      ensures Valid() && this.n == n && fresh(bufs) && fresh(next) && fresh(prev)
      ensures WellFormed(View()) && forall b :: 0 <= b < n ==> bufs[b] == Buf(0, 0, false, 0, 0)
    {
      this.n := n;
      bufs := new Buf[n](_ => Buf(0, 0, false, 0, 0));
      next := new nat[n + 1](_ => n);
      prev := new nat[n + 1](_ => n);
      order := [];
      new;
      var b := 0;
      while b < n
        invariant 0 <= b <= n && Shape() && |order| == b && forall i :: 0 <= i < b ==> order[i] < b
        invariant forall b :: 0 <= b < n ==> bufs[b] == Buf(0, 0, false, 0, 0)
        modifies this, next, prev
      {
        AddFront(b);
        b := b + 1;
      }
    }

    method AddFront(b: nat)
      requires Shape() && b < n && b !in order
      modifies this`order, next, prev
      ensures Shape() && order == [b] + old(order)
    {
      ghost var next0, prev0 := next[..], prev[..];
      RingEnds(next0, prev0, order, n);
      next[b] := next[n];
      prev[b] := n;
      prev[next[n]] := b;
      next[n] := b;
      PushFront(next0, prev0, order, n, b, next[..], prev[..]);
      order := [b] + order;
    }

    /** bget up to the release of bcache.lock: the buffer for the block, if there is one, and
        otherwise the least recently used one that is free. It panics exactly when neither
        exists. */
    method Bget(dev: nat, blockno: nat) returns (ok: bool, b: nat)
      requires Valid()
      modifies bufs
      ensures WellFormed(old(View())) && (ok <==> !(Missing(old(View()), dev, blockno) && AllBusy(old(View()))))
      ensures !ok ==> View() == old(View())
      ensures ok ==> b < n
      ensures ok && !Missing(old(View()), dev, blockno) ==>
        Hit(old(View()), dev, blockno, b) && View() == Ref(old(View()), b)
      ensures ok && Missing(old(View()), dev, blockno) ==>
        Victim(old(View()), b) && View() == Recycle(old(View()), b, dev, blockno)
    {
      b := FindCached(dev, blockno);
      if b != n {
        bufs[b] := bufs[b].(refcnt := bufs[b].refcnt + 1);
        return true, b;
      }
      b := FindFree();
      if b != n {
        bufs[b] := Buf(dev, blockno, false, 1, bufs[b].data);
        return true, b;
      }
      return false, 0;
    }

    /** bget's walk from the most recently used buffer on; the head, n, if it finds none. */
    method FindCached(dev: nat, blockno: nat) returns (b: nat)
      requires Valid()
      ensures b <= n && WellFormed(View())
      ensures if b == n then Missing(View(), dev, blockno) else Hit(View(), dev, blockno, b)
    {
      hide Ring;
      ghost var c := View();
      RingEnds(next[..], prev[..], order, n);
      b := next[n];
      ghost var i := 0;
      while b != n
        invariant 0 <= i <= |order| && b == Stop(order, n, i + 1)
        invariant forall j :: 0 <= j < i ==> !Matches(c, j, dev, blockno)
        decreases |order| - i
      {
        RingMiddle(next[..], prev[..], order, n, i);
        if bufs[b].dev == dev && bufs[b].blockno == blockno {
          assert Matches(c, i, dev, blockno);
          return;
        }
        b := next[b];
        i := i + 1;
      }
    }

    /** bget's walk from the least recently used buffer on. */
    method FindFree() returns (b: nat)
      requires Valid()
      ensures b <= n && WellFormed(View())
      ensures if b == n then AllBusy(View()) else Victim(View(), b)
    {
      hide Ring, Victim, AllBusy, Distinct, WellFormed, BusyFrom;
      ghost var c := View();
      RingEnds(next[..], prev[..], order, n);
      AllListed(c);
      b := prev[n];
      ghost var i := |order|;
      while b != n
        invariant 0 <= i <= |order| && b == Stop(order, n, i)
        invariant BusyFrom(c, i)
        decreases i
      {
        RingMiddle(next[..], prev[..], order, n, i - 1);
        BusyStep(c, i - 1);
        if bufs[b].refcnt == 0 {
          return;
        }
        b := prev[b];
        i := i - 1;
      }
      NoVictim(c);
    }

    /** brelse after the sleep lock is released: one reference less, and a buffer that is now free
        becomes the most recently used. */
    method Brelse(b: nat)
      requires Valid() && b < n && bufs[b].refcnt > 0
      modifies this`order, bufs, next, prev
      ensures Valid() && bufs[..] == old(bufs[..])[b := old(bufs[b]).(refcnt := old(bufs[b].refcnt) - 1)]
      ensures if bufs[b].refcnt == 0 then Moved(old(order), order, b) else order == old(order)
    {
      bufs[b] := bufs[b].(refcnt := bufs[b].refcnt - 1);
      if bufs[b].refcnt == 0 {
        ghost var x := Everyone(order, n, b);
        ghost var next0, prev0, order0 := next[..], prev[..], order;
        Unlink(next0, prev0, order, n, x);
        var p, q := prev[b], next[b];
        prev[q] := p;
        next[p] := q;
        assert next[..] == next0[p := q] && prev[..] == prev0[q := p];
        order := order[..x] + order[x + 1..];
        AddFront(b);
        assert order == [b] + order0[..x] + order0[x + 1..];
      }
    }

    method Bpin(b: nat)
      requires Valid() && b < n
      modifies bufs
      ensures Valid() && View() == Ref(old(View()), b)
    {
      bufs[b] := bufs[b].(refcnt := bufs[b].refcnt + 1);
    }
  }
}
