/** The pipe of pipe.c. A method is what one process does between taking pi->lock and giving it up,
    at the end or in sleep(); other processes may use the pipe between two of them. The counters
    nread and nwrite are 32-bit and wrap around. */
module Pipe {
  import opened Params

  const PIPESIZE: nat := 512
  const WRAP: nat := 0x1_0000_0000

  /** What came of it: the process has to sleep, having written n bytes so far; it was refused; or
      the call is done and returns r. */
  datatype Outcome = Sleeps(n: nat) | Refused | Done(r: nat)

  /** The counters, each the remainder of a true count, tell an empty and a full pipe apart, and
      find the slot of every byte, whatever the number of wrap-arounds. */
  lemma Wraps(r: nat, w: nat)
    requires r <= w <= r + PIPESIZE
    ensures w % WRAP == r % WRAP <==> w == r
    ensures w % WRAP == (r % WRAP + PIPESIZE) % WRAP <==> w == r + PIPESIZE
    ensures w % WRAP % PIPESIZE == w % PIPESIZE && r % WRAP % PIPESIZE == r % PIPESIZE
    ensures (w % WRAP + 1) % WRAP == (w + 1) % WRAP && (r % WRAP + 1) % WRAP == (r + 1) % WRAP
  {
    Windowed(r, w);
    Multiple(w);
    Multiple(r);
    Successor(w);
    Successor(r);
  }

  lemma Windowed(r: nat, w: nat)
    requires r <= w <= r + PIPESIZE
    ensures w % WRAP == r % WRAP <==> w == r
    ensures w % WRAP == (r % WRAP + PIPESIZE) % WRAP <==> w == r + PIPESIZE
  {
  }

  lemma Successor(x: nat)
    ensures (x % WRAP + 1) % WRAP == (x + 1) % WRAP
  {
  }

  lemma Multiple(x: nat)
    ensures x % WRAP % PIPESIZE == x % PIPESIZE
  {
    AddMultiple(0x80_0000 * (x / WRAP), x % WRAP);
  }

  lemma AddMultiple(y: nat, m: nat)
    ensures (PIPESIZE * y + m) % PIPESIZE == m % PIPESIZE
  {
  }

  /** Within one window of PIPESIZE counts, slots are distinct. */
  lemma Slots(i: nat, j: nat)
    requires i < j < i + PIPESIZE
    ensures i % PIPESIZE != j % PIPESIZE
  {
  }

  /** How many bytes are in a pipe with these counters. */
  function Size(nread: nat, nwrite: nat): nat
    requires nread < WRAP && nwrite < WRAP
  {
    (nwrite + WRAP - nread) % WRAP
  }

  /** The bytes in a pipe, oldest first, as its buffer and its counters say. */
  function Window(data: seq<Byte>, nread: nat, nwrite: nat): seq<Byte>
    requires |data| == PIPESIZE && nread < WRAP && nwrite < WRAP
  {
    seq(Size(nread, nwrite), j requires 0 <= j => data[(nread + j) % PIPESIZE])
  }

  lemma SizeIs(r: nat, w: nat)
    requires r <= w <= r + PIPESIZE
    ensures Size(r % WRAP, w % WRAP) == w - r
  {
  }

  lemma SlotIs(r: nat, j: nat)
    ensures (r % WRAP + j) % PIPESIZE == (r + j) % PIPESIZE
  {
    AddMultiple(0x80_0000 * (r / WRAP), r % WRAP + j);
  }

  /** The same by true counts. */
  lemma WindowIs(data: seq<Byte>, r: nat, w: nat)
    requires |data| == PIPESIZE && r <= w <= r + PIPESIZE
    ensures var s := Window(data, r % WRAP, w % WRAP);
      |s| == w - r && forall j :: 0 <= j < w - r ==> s[j] == data[(r + j) % PIPESIZE]
  {
    SizeIs(r, w);
    forall j | 0 <= j < w - r
      ensures Window(data, r % WRAP, w % WRAP)[j] == data[(r + j) % PIPESIZE]
    {
      SlotIs(r, j);
    }
  }

  lemma WindowPut(data: seq<Byte>, r: nat, w: nat, ch: Byte)
    requires |data| == PIPESIZE && r <= w < r + PIPESIZE
    ensures Window(data[w % PIPESIZE := ch], r % WRAP, (w + 1) % WRAP) == Window(data, r % WRAP, w % WRAP) + [ch]
  {
    var data' := data[w % PIPESIZE := ch];
    WindowIs(data, r, w);
    WindowIs(data', r, w + 1);
    hide Window;
    var s, s' := Window(data, r % WRAP, w % WRAP), Window(data', r % WRAP, (w + 1) % WRAP);
    forall j | 0 <= j < w + 1 - r
      ensures s'[j] == (s + [ch])[j]
    {
      if j < w - r {
        Slots(r + j, w);
      }
    }
  }

  lemma WindowTake(data: seq<Byte>, r: nat, w: nat)
    requires |data| == PIPESIZE && r < w <= r + PIPESIZE
    ensures Window(data, r % WRAP, w % WRAP) == [data[r % PIPESIZE]] + Window(data, (r + 1) % WRAP, w % WRAP)
  {
    WindowIs(data, r, w);
    WindowIs(data, r + 1, w);
    hide Window;
    var s, s' := Window(data, r % WRAP, w % WRAP), Window(data, (r + 1) % WRAP, w % WRAP);
    forall j | 0 <= j < w - r
      ensures s[j] == ([data[r % PIPESIZE]] + s')[j]
    {
      if j > 0 {
        assert s'[j - 1] == data[(r + 1 + (j - 1)) % PIPESIZE];
      }
    }
  }

  class Pipe {
    const data: array<Byte>
    var nread: nat
    var nwrite: nat
    var readopen: bool
    var writeopen: bool
    /** All bytes ever put into the pipe, and all that have been taken out of its buffer. */
    ghost var written: seq<Byte>
    ghost var consumed: seq<Byte>

    /** Conservation: what readers took, followed by what the buffer and the counters say is in the
        pipe, is what writers put in, in order and without loss or duplication. */
    ghost predicate Valid()
      reads this, data
    {
      && data.Length == PIPESIZE && |consumed| <= |written| <= |consumed| + PIPESIZE
      && nread == |consumed| % WRAP && nwrite == |written| % WRAP
      && consumed + Pending() == written
    }

    ghost function Pending(): seq<Byte>
      requires data.Length == PIPESIZE && nread < WRAP && nwrite < WRAP
      reads this, data
    {
      Window(data[..], nread, nwrite)
    }

    constructor ()
      ensures Valid() && written == [] && readopen && writeopen && fresh(data)
    {
      data := new Byte[PIPESIZE](_ => 0);
      nread, nwrite, readopen, writeopen := 0, 0, true, true;
      written, consumed := [], [];
    }

    /** One pass of pipewrite from byte i on, of which only src can be read from user memory. */
    method TryWrite(src: seq<Byte>, start: nat, n: nat, killed: bool) returns (o: Outcome)
      requires Valid() && start <= |src| <= n
      modifies this`nwrite, this`written, data
      ensures Valid()
      ensures o.Refused? <==> start < n && (!readopen || killed)
      ensures o.Refused? ==> written == old(written) && Pending() == old(Pending())
      ensures !o.Refused? ==> var m := if o.Sleeps? then o.n else o.r;
        start <= m <= |src| && written == old(written) + src[start..m] && Pending() == old(Pending()) + src[start..m]
      ensures o.Sleeps? ==> o.n < n && |Pending()| == PIPESIZE
      ensures o.Done? ==> o.r == |src|
    {
      hide Window;
      var i := start;
      assert src[start..start] == [];
      while i < n
        invariant start <= i <= |src| && Valid() && written == old(written) + src[start..i]
        invariant Pending() == old(Pending()) + src[start..i]
        invariant start < n && (!readopen || killed) ==> i == start
      {
        if !readopen || killed {
          return Refused;
        }
        Wraps(|consumed|, |written|);
        if nwrite == (nread + PIPESIZE) % WRAP {
          return Sleeps(i);
        }
        if i >= |src| {
          break;
        }
        Put(src[i]);
        assert src[start..i] + [src[i]] == src[start..i + 1];
        i := i + 1;
      }
      return Done(i);
    }

    method Put(ch: Byte)
      requires Valid() && |written| < |consumed| + PIPESIZE
      modifies this`nwrite, this`written, data
      ensures Valid() && written == old(written) + [ch] && Pending() == old(Pending()) + [ch]
    {
      hide Window;
      Wraps(|consumed|, |written|);
      WindowPut(data[..], |consumed|, |written|, ch);
      data[nwrite % PIPESIZE] := ch;
      assert data[..] == old(data[..])[|written| % PIPESIZE := ch];
      nwrite := (nwrite + 1) % WRAP;
      written := written + [ch];
    }

    /** piperead: the oldest bytes, as many as wanted and there. A byte that copyout cannot deliver,
        because user memory ends after `room` bytes, is taken all the same, and not counted. */
    method TryRead(n: nat, room: nat, killed: bool) returns (o: Outcome, dst: seq<Byte>)
      requires Valid()
      modifies this`nread, this`consumed
      ensures Valid()
      ensures o.Sleeps? ==> old(Pending()) == [] && writeopen && consumed == old(consumed)
      ensures o.Refused? ==> old(Pending()) == [] && writeopen && killed && consumed == old(consumed)
      ensures !o.Done? ==> dst == []
      ensures o.Done? <==> old(Pending()) != [] || !writeopen
      ensures o.Done? ==>
        var m := Least(n, |old(Pending())|);
        var out := if room < m then room + 1 else m;
        && o.r == |dst| == Least(m, room) && dst == old(Pending())[..o.r]
        && consumed == old(consumed) + old(Pending())[..out] && Pending() == old(Pending())[out..]
    {
      hide Window;
      dst := [];
      Wraps(|consumed|, |written|);
      if nread == nwrite && writeopen {
        if killed {
          return Refused, [];
        }
        return Sleeps(0), [];
      }
      ghost var p := Pending();
      var i := 0;
      while i < n
        invariant 0 <= i <= n && Valid() && i <= |p| && i <= room && dst == p[..i]
        invariant consumed == old(consumed) + p[..i] && Pending() == p[i..]
      {
        Wraps(|consumed|, |written|);
        if nread == nwrite {
          break;
        }
        var ch := Take();
        assert p[..i] + [p[i]] == p[..i + 1];
        if i >= room {
          return Done(i), dst;
        }
        dst := dst + [ch];
        i := i + 1;
      }
      return Done(i), dst;
    }

    method Take() returns (ch: Byte)
      requires Valid() && |consumed| < |written|
      modifies this`nread, this`consumed
      ensures Valid() && old(Pending()) == [ch] + Pending() && consumed == old(consumed) + [ch]
    {
      hide Window;
      Wraps(|consumed|, |written|);
      WindowTake(data[..], |consumed|, |written|);
      ch := data[nread % PIPESIZE];
      nread := (nread + 1) % WRAP;
      consumed := consumed + [ch];
    }

    method Close(writable: bool) returns (gone: bool)
      modifies this`readopen, this`writeopen
      ensures readopen == (old(readopen) && writable) && writeopen == (old(writeopen) && !writable)
      ensures gone <==> !readopen && !writeopen
    {
      if writable {
        writeopen := false;
      } else {
        readopen := false;
      }
      return !readopen && !writeopen;
    }
  }

  function Least(a: nat, b: nat): nat {
    if a < b then a else b
  }
}
