/** Sequences of changes to the bytes of a file, some of which can be lost again: who wrote each byte
    that is there. */
module ByteHistory {
  import opened Params
  import opened Volume
  import opened FileSys

  // ---------------------------------------------------------------- bytes over bytes

  /** The bytes of a file, and those that it falls back to where its blocks are stray. */
  datatype File = File(bytes: seq<Byte>, under: seq<Byte>)

  /** What an operation means for a file. After it, the file blocks `saved` are not stray. */
  datatype Change =
    | Write(off: nat, data: seq<Byte>, saved: set<nat>)
    | Store(off: nat, data: seq<Byte>)
    | Truncate
    | Keep(saved: set<nat>)
    | Lose(blocks: set<nat>)

  /** s, with the bytes of t in the blocks ks. */
  function Mixed(s: seq<Byte>, t: seq<Byte>, ks: set<nat>): (r: seq<Byte>)
    ensures |r| == |s|
    ensures forall x :: 0 <= x < |s| ==> r[x] == if x / BSIZE in ks && x < |t| then t[x] else s[x]
  {
    seq(|s|, x requires 0 <= x < |s| => if x / BSIZE in ks && x < |t| then t[x] else s[x])
  }

  /** u made as long as s, with the bytes of s in the blocks ks. */
  function Backing(s: seq<Byte>, u: seq<Byte>, ks: set<nat>): (r: seq<Byte>)
    ensures |r| == |s|
    ensures forall x :: 0 <= x < |s| ==> r[x] == if x / BSIZE in ks || x >= |u| then s[x] else u[x]
  {
    seq(|s|, x requires 0 <= x < |s| => if x / BSIZE in ks || x >= |u| then s[x] else u[x])
  }

  /** A write or store beyond the end of the file, which does not happen, does nothing. */
  function Changed(f: File, c: Change): File {
    match c
    case Write(off, data, saved) =>
      if off > |f.bytes| then f else
        var bytes := Overlay(f.bytes, off, data);
        File(bytes, Backing(bytes, f.under, saved))
    case Store(off, data) =>
      if off + |data| > |f.bytes| then f else f.(bytes := Overlay(f.bytes, off, data))
    case Truncate => File([], [])
    case Keep(saved) => f.(under := Backing(f.bytes, f.under, saved))
    case Lose(blocks) => f.(bytes := Mixed(f.bytes, f.under, blocks))
  }

  /** The file after the changes h. */
  function Play(f: File, h: seq<Change>): File {
    if h == [] then f else Changed(Play(f, h[..|h| - 1]), h[|h| - 1])
  }

  // ---------------------------------------------------------------- who wrote a byte

  predicate Covers(c: Change, x: nat) {
    (c.Write? || c.Store?) && c.off <= x < c.off + |c.data|
  }

  predicate Saves(c: Change, k: nat) {
    (c.Write? || c.Keep?) && k in c.saved
  }

  /** Changes j to n save nothing of block k. */
  predicate Unsaved(h: seq<Change>, j: nat, n: nat, k: nat)
    requires n <= |h|
  {
    forall u :: j <= u < n ==> !Saves(h[u], k)
  }

  /** The block of offset x was lost with what had been stored in it before change j. */
  ghost predicate Lost(h: seq<Change>, j: nat, x: nat) {
    exists t :: j <= t < |h| && h[t].Lose? && x / BSIZE in h[t].blocks && Unsaved(h, j, t, x / BSIZE)
  }

  /** Change j put the byte at x that is there, unless a later one did. */
  ghost predicate Stands(h: seq<Change>, j: nat, x: nat)
    requires j < |h|
  {
    Covers(h[j], x) && (h[j].Store? ==> !Lost(h, j + 1, x))
  }

  /** From change j on, nothing that stands covers x, and the file is not truncated. */
  ghost predicate Untouched(h: seq<Change>, j: nat, x: nat) {
    forall k :: j <= k < |h| ==> !h[k].Truncate? && !Stands(h, k, x)
  }

  /** Byte b at offset x is that of the last write or store over x that was not lost, after which the
      file was not truncated; or it was there from the start. */
  ghost predicate LastWritten(f: File, h: seq<Change>, x: nat, b: Byte) {
    || (exists j :: 0 <= j < |h| && Stands(h, j, x) && b == h[j].data[x - h[j].off] && Untouched(h, j + 1, x))
    || (Untouched(h, 0, x) && x < |f.bytes| == |f.under| && b == if Lost(h, 0, x) then f.under[x] else f.bytes[x])
  }

  /** A write begins inside the file and saves the blocks of its bytes, and a store stays inside. */
  ghost predicate Fits(f: File, c: Change) {
    && (c.Write? ==> c.off <= |f.bytes| && forall x :: c.off <= x < c.off + |c.data| ==> x / BSIZE in c.saved)
    && (c.Store? ==> c.off + |c.data| <= |f.bytes|)
  }

  /** Every change fits, and the file and what it falls back to have one length. */
  ghost predicate Sound(f: File, h: seq<Change>) {
    |f.bytes| == |f.under| && forall j :: 0 <= j < |h| ==> Fits(Play(f, h[..j]), h[j])
  }

  lemma SoundSnoc(f: File, p: seq<Change>, c: Change)
    ensures Sound(f, p + [c]) <==> Sound(f, p) && Fits(Play(f, p), c)
  {
    hide Play, Fits;
    var h := p + [c];
    assert forall j :: 0 <= j <= |p| ==> h[..j] == p[..j];
    assert p[..|p|] == p;
    if Sound(f, h) {
      assert Fits(Play(f, h[..|p|]), h[|p|]);
      forall j | 0 <= j < |p|
        ensures Fits(Play(f, p[..j]), p[j])
      {
        assert Fits(Play(f, h[..j]), h[j]);
      }
    }
  }

  lemma {:induction false} PlayLengths(f: File, h: seq<Change>)
    requires |f.bytes| == |f.under|
    ensures |Play(f, h).bytes| == |Play(f, h).under|
  {
    if h != [] {
      PlayLengths(f, h[..|h| - 1]);
    }
  }

  /** One more change at the end. */
  lemma LostSnoc(p: seq<Change>, c: Change, j: nat, x: nat)
    requires j <= |p|
    ensures var k := x / BSIZE;
      Lost(p + [c], j, x) <==> Lost(p, j, x) || (c.Lose? && k in c.blocks && Unsaved(p, j, |p|, k))
  {
    var h, k := p + [c], x / BSIZE;
    if Lost(h, j, x) {
      var t :| j <= t < |h| && h[t].Lose? && k in h[t].blocks && Unsaved(h, j, t, k);
      forall u | j <= u < t
        ensures !Saves(p[u], k)
      {
        assert h[u] == p[u];
      }
      if t < |p| {
        assert p[t] == h[t] && Unsaved(p, j, t, k);
      }
    }
    if Lost(p, j, x) {
      var t :| j <= t < |p| && p[t].Lose? && k in p[t].blocks && Unsaved(p, j, t, k);
      assert h[t] == p[t];
      assert Unsaved(h, j, t, k) by {
        assert forall u :: j <= u < t ==> h[u] == p[u];
      }
    }
    if c.Lose? && k in c.blocks && Unsaved(p, j, |p|, k) {
      assert h[|p|] == c;
      assert Unsaved(h, j, |p|, k) by {
        assert forall u :: j <= u < |p| ==> h[u] == p[u];
      }
    }
  }

  lemma UnsavedSnoc(p: seq<Change>, c: Change, j: nat, k: nat)
    requires j <= |p|
    ensures Unsaved(p + [c], j, |p| + 1, k) <==> Unsaved(p, j, |p|, k) && !Saves(c, k)
  {
    var h := p + [c];
    assert h[|p|] == c && forall u :: 0 <= u < |p| ==> h[u] == p[u];
    if Unsaved(h, j, |p| + 1, k) {
      forall u | j <= u < |p|
        ensures !Saves(p[u], k)
      {
        assert h[u] == p[u];
      }
    }
  }

  /** Two histories that agree in their first n changes, after which nothing touches x, have the same
      last writer. */
  lemma SameWriter(f: File, h: seq<Change>, h': seq<Change>, n: nat, x: nat, b: Byte)
    requires LastWritten(f, h, x, b) && n <= |h| && n <= |h'| && h[..n] == h'[..n]
    requires forall j :: 0 <= j < n && Covers(h[j], x) && h[j].Store? ==> (Lost(h, j + 1, x) <==> Lost(h', j + 1, x))
    requires Lost(h, 0, x) <==> Lost(h', 0, x)
    requires Untouched(h, n, x) && Untouched(h', n, x)
    ensures LastWritten(f, h', x, b)
  {
    hide Lost;
    forall j | 0 <= j < n
      ensures h[j] == h'[j] && (Stands(h, j, x) <==> Stands(h', j, x))
    {
      assert h[j] == h[..n][j] && h'[j] == h'[..n][j];
    }
    if j :| 0 <= j < |h| && Stands(h, j, x) && b == h[j].data[x - h[j].off] && Untouched(h, j + 1, x) {
      assert j < n;
      forall k | j + 1 <= k < |h'|
        ensures !h'[k].Truncate? && !Stands(h', k, x)
      {
        if k < n {
          assert !h[k].Truncate? && !Stands(h, k, x);
        }
      }
      assert Untouched(h', j + 1, x);
    } else {
      forall k | 0 <= k < |h'|
        ensures !h'[k].Truncate? && !Stands(h', k, x)
      {
        if k < n {
          assert !h[k].Truncate? && !Stands(h, k, x);
        }
      }
    }
  }

  /** The last change covers x and stands. */
  lemma NowWritten(f: File, h: seq<Change>, x: nat)
    requires h != [] && Stands(h, |h| - 1, x)
    ensures LastWritten(f, h, x, h[|h| - 1].data[x - h[|h| - 1].off])
  {
    assert Untouched(h, |h| - 1 + 1, x);
  }

  lemma NoLoss(h: seq<Change>, x: nat)
    ensures !Lost(h, |h|, x)
  {
  }

  /** A change that neither covers x nor loses its block has no say. */
  lemma Passes(f: File, p: seq<Change>, c: Change, x: nat, b: Byte)
    requires LastWritten(f, p, x, b) && !Covers(c, x) && !c.Truncate? && !(c.Lose? && x / BSIZE in c.blocks)
    ensures LastWritten(f, p + [c], x, b)
  {
    var h := p + [c];
    hide Lost;
    forall j | 0 <= j <= |p|
      ensures Lost(h, j, x) <==> Lost(p, j, x)
    {
      LostSnoc(p, c, j, x);
    }
    assert p[..|p|] == p && h[..|p|] == p;
    assert Untouched(h, |p|, x);
    SameWriter(f, p, h, |p|, x, b);
  }

  /** Once saved, a byte does not go when its block is lost. */
  lemma SavedStays(f: File, p: seq<Change>, c: Change, l: Change, x: nat, b: Byte)
    requires LastWritten(f, p + [c], x, b) && Saves(c, x / BSIZE) && l.Lose?
    ensures LastWritten(f, p + [c] + [l], x, b)
  {
    var h, k := p + [c], x / BSIZE;
    hide Lost;
    forall j | 0 <= j <= |p|
      ensures Lost(h + [l], j, x) <==> Lost(h, j, x)
    {
      LostSnoc(h, l, j, x);
      UnsavedSnoc(p, c, j, k);
    }
    assert h[..|h|] == h && (h + [l])[..|h|] == h && h[|p|] == c;
    assert Untouched(h + [l], |h|, x);
    SameWriter(f, h, h + [l], |h|, x, b);
  }

  /** A change in front of a loss, which saves nothing of the block, has no say. */
  lemma LostAnyway(f: File, p: seq<Change>, c: Change, l: Change, x: nat, b: Byte)
    requires LastWritten(f, p + [l], x, b) && !Saves(c, x / BSIZE) && l.Lose? && x / BSIZE in l.blocks
    requires !c.Truncate? && (Covers(c, x) ==> c.Store?)
    ensures LastWritten(f, p + [c] + [l], x, b)
  {
    hide LastWritten, Lost, Untouched, Saves, Covers;
    var h, h' := p + [l], p + [c] + [l];
    forall j | 0 <= j <= |p|
      ensures Lost(h, j, x) <==> Lost(h', j, x)
    {
      LostPast(p, c, l, j, x);
    }
    TailUntouched(p, c, l, x);
    assert h[..|p|] == p && h'[..|p|] == p;
    SameWriter(f, h, h', |p|, x, b);
  }

  lemma LostPast(p: seq<Change>, c: Change, l: Change, j: nat, x: nat)
    requires j <= |p| && !Saves(c, x / BSIZE) && l.Lose? && x / BSIZE in l.blocks
    ensures Lost(p + [l], j, x) <==> Lost(p + [c] + [l], j, x)
  {
    hide Lost, Saves;
    LostSnoc(p, l, j, x);
    LostSnoc(p, c, j, x);
    LostSnoc(p + [c], l, j, x);
    UnsavedSnoc(p, c, j, x / BSIZE);
  }

  lemma TailUntouched(p: seq<Change>, c: Change, l: Change, x: nat)
    requires l.Lose? && x / BSIZE in l.blocks && !c.Truncate? && (Covers(c, x) ==> c.Store?)
    ensures Untouched(p + [l], |p|, x) && Untouched(p + [c] + [l], |p|, x)
  {
    hide Lost;
    var h, h' := p + [l], p + [c] + [l];
    assert h[|p|] == l && h'[|p|] == c && h'[|p| + 1] == l;
    LostSnoc(p + [c], l, |p| + 1, x);
    assert Lost(h', |p| + 1, x);
  }

  /** A loss in place of another one of the same block. */
  lemma SameLoss(f: File, p: seq<Change>, l: Change, l': Change, x: nat, b: Byte)
    requires LastWritten(f, p + [l], x, b) && l.Lose? && l'.Lose? && x / BSIZE in l.blocks && x / BSIZE in l'.blocks
    ensures LastWritten(f, p + [l'], x, b)
  {
    var h, h' := p + [l], p + [l'];
    hide Lost;
    forall j | 0 <= j <= |p|
      ensures Lost(h, j, x) <==> Lost(h', j, x)
    {
      LostSnoc(p, l, j, x);
      LostSnoc(p, l', j, x);
    }
    assert h[..|p|] == p && h'[..|p|] == p && h'[|p|] == l' && h[|p|] == l;
    assert Untouched(h, |p|, x) && Untouched(h', |p|, x);
    SameWriter(f, h, h', |p|, x, b);
  }

  /** What is in the file, and what it falls back to: the latter is what would be there if the block
      were lost now. */
  ghost predicate Explained(f: File, h: seq<Change>, x: nat) {
    var g := Play(f, h);
    && (x < |g.bytes| ==> LastWritten(f, h, x, g.bytes[x]))
    && (x < |g.under| ==> LastWritten(f, h + [Lose({x / BSIZE})], x, g.under[x]))
  }

  lemma ExplainedStart(f: File, x: nat)
    requires |f.bytes| == |f.under|
    ensures Explained(f, [], x)
  {
    var l := Lose({x / BSIZE});
    if x < |f.bytes| {
      assert !Lost([], 0, x);
      LostSnoc([], l, 0, x);
      assert [] + [l] == [l];
      assert LastWritten(f, [], x, f.bytes[x]);
      assert Untouched([l], 0, x);
    }
  }

  lemma ExplainedBytes(f: File, p: seq<Change>, c: Change, x: nat)
    requires Fits(Play(f, p), c) && Explained(f, p, x) && |Play(f, p).bytes| == |Play(f, p).under|
    ensures var g := Changed(Play(f, p), c); x < |g.bytes| ==> LastWritten(f, p + [c], x, g.bytes[x])
  {
    hide LastWritten, Lost, Play;
    var g, g', h := Play(f, p), Changed(Play(f, p), c), p + [c];
    if x < |g'.bytes| {
      if c.Lose? && x / BSIZE in c.blocks {
        SameLoss(f, p, Lose({x / BSIZE}), c, x, g.under[x]);
      } else if Covers(c, x) {
        NoLoss(h, x);
        assert h[|h| - 1] == c;
        NowWritten(f, h, x);
      } else {
        Passes(f, p, c, x, g.bytes[x]);
      }
    }
  }

  lemma ExplainedUnder(f: File, p: seq<Change>, c: Change, x: nat)
    requires Fits(Play(f, p), c) && Explained(f, p, x) && |Play(f, p).bytes| == |Play(f, p).under|
    ensures var g, l := Changed(Play(f, p), c), Lose({x / BSIZE});
      x < |g.under| ==> LastWritten(f, p + [c] + [l], x, g.under[x])
  {
    hide LastWritten, Lost, Play;
    var g, g', l := Play(f, p), Changed(Play(f, p), c), Lose({x / BSIZE});
    if x < |g'.under| {
      if Saves(c, x / BSIZE) {
        ExplainedBytes(f, p, c, x);
        SavedStays(f, p, c, l, x, g'.bytes[x]);
      } else {
        LostAnyway(f, p, c, l, x, g.under[x]);
      }
    }
  }

  lemma {:induction false} Explains(f: File, h: seq<Change>, x: nat)
    requires Sound(f, h)
    ensures Explained(f, h, x)
    decreases |h|
  {
    hide LastWritten, Fits;
    if h == [] {
      ExplainedStart(f, x);
    } else {
      var p, c := h[..|h| - 1], h[|h| - 1];
      assert p + [c] == h;
      SoundSnoc(f, p, c);
      Explains(f, p, x);
      PlayLengths(f, p);
      ExplainedBytes(f, p, c, x);
      ExplainedUnder(f, p, c, x);
    }
  }

  // ---------------------------------------------------------------- a store undone

  lemma ApartBlocks(o: nat, n: nat, x: nat)
    requires o % BSIZE + n <= BSIZE && x / BSIZE != o / BSIZE
    ensures !(o <= x < o + n)
  {
  }

  /** Losing the block of a store that stays in one block, which a write saved just before, takes
      back the bytes of the store and no more. */
  lemma LoseUndoes(f: File, w: Change, o: nat, data: seq<Byte>)
    requires |f.bytes| == |f.under| && w.Write? && Fits(f, w) && o / BSIZE in w.saved
    requires o % BSIZE + |data| <= BSIZE && Fits(Changed(f, w), Store(o, data))
    ensures var g := Changed(f, w);
      Changed(Changed(g, Store(o, data)), Lose({o / BSIZE})).bytes == g.bytes == Overlay(f.bytes, w.off, w.data)
  {
    var g := Changed(f, w);
    var g' := Changed(Changed(g, Store(o, data)), Lose({o / BSIZE}));
    forall x | 0 <= x < |g.bytes|
      ensures g'.bytes[x] == g.bytes[x]
    {
      if x / BSIZE != o / BSIZE {
        ApartBlocks(o, |data|, x);
      }
    }
  }
}
