/** Sequences of operations on a volume: what a file holds after any of them, and when a write
    that faults shows bytes that it did not count. */
module FileHistory {
  import opened Bytes
  import opened Params
  import opened Volume
  import opened Fallback
  import opened FileSys
  import opened ByteHistory
  import LogMachine

  // ---------------------------------------------------------------- histories

  /** A volume as bread shows it, and its stray blocks. */
  datatype Moment = Moment(v: Vol, st: Strays)

  /** What has happened: a whole write to the file; a store into one block of it without log_write,
      which ends a write that faulted; itrunc of the file; something to file j, or a commit; or bget
      has recycled the buffer of stray block b. */
  datatype Event =
    | Wrote(off: nat, src: seq<Byte>)
    | Stored(o: nat, data: seq<Byte>)
    | Emptied
    | Elsewhere(j: nat)
    | Saved(b: nat)
    | Recycled(b: nat)

  ghost predicate Sane(m: Moment, i: nat) {
    Good(m.v) && Shape(m.v) && Backed(m.v, m.st) && i in m.v.inodes
  }

  ghost predicate Follows(m: Moment, e: Event, m': Moment, i: nat)
    requires Sane(m, i)
  {
    && Sane(m', i)
    && match e
       case Wrote(off, src) =>
         && Written(m.v, m'.v, i, off, |src|, |src|, src)
         && Tracked(m.v, m.st, m'.v, m'.st, i, off, off + |src|)
       case Stored(o, data) => o <= m.v.inodes[i].size && Faulted(m.v, m.st, m'.v, m'.st, i, o, data)
       case Emptied => Truncated(m.v, m'.v, i)
       case Elsewhere(j) =>
         && j != i && OthersSame(m.v, m'.v, j)
         && forall k :: 0 <= k < MAXFILE ==> FallsAt(m.v, m.st, m'.v, m'.st, i, k)
       case Saved(b) => m'.v == m.v && m'.st == m.st - {b}
       case Recycled(b) => Reverted(m.v, m.st, m'.v, m'.st, b)
  }

  /** Moments ms with the events es between them. */
  ghost predicate History(ms: seq<Moment>, es: seq<Event>, i: nat) {
    && |ms| == |es| + 1 && (forall k :: 0 <= k < |ms| ==> Sane(ms[k], i))
    && forall k :: 0 <= k < |es| ==> Follows(ms[k], es[k], ms[k + 1], i)
  }

  /** The bytes of file i, and those that it falls back to. */
  ghost function FileOf(m: Moment, i: nat): File
    requires Sane(m, i)
  {
    File(Contents(m.v, i), Beneath(m.v, m.st, i))
  }

  /** The file blocks that are not stray. */
  ghost function Unstray(m: Moment, i: nat): (ks: set<nat>)
    requires Sane(m, i)
    ensures forall k :: k in ks <==> 0 <= k < MAXFILE && At(m.v, i, k) !in m.st
  {
    set k | 0 <= k < MAXFILE && At(m.v, i, k) !in m.st
  }

  /** The file blocks that are disk block b: one or none. */
  ghost function PlacesOf(m: Moment, i: nat, b: nat): (ks: set<nat>)
    requires Sane(m, i)
    ensures forall k :: k in ks <==> 0 <= k < MAXFILE && At(m.v, i, k) == b
  {
    set k | 0 <= k < MAXFILE && At(m.v, i, k) == b
  }

  /** What an event means for the file. A store shows what of it lies inside the file. */
  ghost function EffectOf(m: Moment, e: Event, m': Moment, i: nat): Change
    requires Sane(m, i) && Follows(m, e, m', i)
  {
    match e
    case Wrote(off, src) => Write(off, src, Unstray(m', i))
    case Stored(o, data) => Store(o, data[..Min(|data|, m.v.inodes[i].size - o)])
    case Emptied => Truncate
    case Elsewhere(_) => Keep(Unstray(m', i))
    case Saved(_) => Keep(Unstray(m', i))
    case Recycled(b) => Lose(PlacesOf(m, i, b))
  }

  // ---------------------------------------------------------------- each event does what its effect says

  ghost predicate Effective(m: Moment, c: Change, m': Moment, i: nat)
    requires Sane(m, i) && Sane(m', i)
  {
    Fits(FileOf(m, i), c) && FileOf(m', i) == Changed(FileOf(m, i), c)
  }

  lemma WroteEffect(m: Moment, off: nat, src: seq<Byte>, m': Moment, i: nat)
    requires Sane(m, i) && Follows(m, Wrote(off, src), m', i)
    ensures Effective(m, Write(off, src, Unstray(m', i)), m', i)
  {
    hide Good, At, ByteAt, Backed, Faulted, Truncated, OthersSame, Reverted;
    var f, f', saved := FileOf(m, i), FileOf(m', i), Unstray(m', i);
    assert src[..|src|] == src;
    assert f'.bytes == Overlay(f.bytes, off, src);
    forall x | off <= x < off + |src|
      ensures x / BSIZE in saved
    {
      BlockOf(off, x);
    }
    forall x | 0 <= x < |f'.bytes|
      ensures f'.under[x] == Backing(f'.bytes, f.under, saved)[x]
    {
      InBlocks(m'.v, i, x);
      if x < |f.bytes| {
        assert FallsAt(m.v, m.st, m'.v, m'.st, i, x / BSIZE);
        UnderFalls(m.v, m.st, m'.v, m'.st, i, x);
      } else {
        UnderSafe(m'.v, m'.st, i, x);
      }
      assert f'.bytes[x] == ByteAt(m'.v, i, x);
    }
  }

  lemma BlockOf(off: nat, x: nat)
    requires off <= x
    ensures off / BSIZE <= x / BSIZE && x / BSIZE * BSIZE <= x
  {
  }

  lemma InBlocks(v: Vol, i: nat, x: nat)
    requires Shape(v) && i in v.inodes && x < v.inodes[i].size
    ensures x < MAXFILE * BSIZE && x / BSIZE < MAXFILE
  {
  }

  lemma UnderSafe(v: Vol, st: Strays, i: nat, x: nat)
    requires Shape(v) && i in v.inodes && x < MAXFILE * BSIZE && At(v, i, x / BSIZE) !in st
    ensures Under(v, st, i, x) == ByteAt(v, i, x)
  {
  }

  /** A store without log_write changes no byte that is fallen back to. */
  lemma StoredBytes(m: Moment, o: nat, data: seq<Byte>, m': Moment, i: nat, x: nat)
    requires Sane(m, i) && Sane(m', i) && Faulted(m.v, m.st, m'.v, m'.st, i, o, data) && data != []
    requires x < m.v.inodes[i].size
    ensures m'.v.inodes == m.v.inodes && x < MAXFILE * BSIZE
    ensures ByteAt(m'.v, i, x) == if o <= x < o + |data| then data[x - o] else ByteAt(m.v, i, x)
    ensures Under(m'.v, m'.st, i, x) == Under(m.v, m.st, i, x)
  {
    var k := o / BSIZE;
    var b := At(m.v, i, k);
    var d := Spliced(m.v.blocks[b], o % BSIZE, data);
    hide Good, At, Spliced, Backed;
    InBlocks(m.v, i, x);
    DataPlace(m.v, i, k);
    PutDataKeeps(m.v, i, k, d);
    PutDataBytes(m.v, i, k, d, x);
    assert At(m'.v, i, x / BSIZE) == At(m.v, i, x / BSIZE);
    StoredByte(m.v, i, o, data, x);
    if At(m.v, i, x / BSIZE) == b {
      assert x / BSIZE == k;
      assert ByteAt(m.v, i, x) == m.v.blocks[b][x % BSIZE];
    }
    StrayedLength(m, b);
  }

  lemma StrayedLength(m: Moment, b: nat)
    requires Shape(m.v) && Backed(m.v, m.st)
    ensures b in m.st ==> |m.st[b]| == BSIZE
  {
  }

  lemma StoredByte(v: Vol, i: nat, o: nat, data: seq<Byte>, x: nat)
    requires Shape(v) && i in v.inodes && x < MAXFILE * BSIZE && o / BSIZE < MAXFILE && o % BSIZE + |data| <= BSIZE
    requires At(v, i, o / BSIZE) < v.l.size
    ensures var d := Spliced(v.blocks[At(v, i, o / BSIZE)], o % BSIZE, data);
      (if x / BSIZE == o / BSIZE then d[x % BSIZE] else ByteAt(v, i, x))
      == if o <= x < o + |data| then data[x - o] else ByteAt(v, i, x)
  {
    hide At;
    assert x == x / BSIZE * BSIZE + x % BSIZE && o == o / BSIZE * BSIZE + o % BSIZE;
    if x / BSIZE != o / BSIZE {
      ApartBlocks(o, |data|, x);
    }
  }

  lemma StoredEffect(m: Moment, o: nat, data: seq<Byte>, m': Moment, i: nat)
    requires Sane(m, i) && Follows(m, Stored(o, data), m', i)
    ensures Effective(m, EffectOf(m, Stored(o, data), m', i), m', i)
  {
    hide Good, At, ByteAt, Backed, Shape, Under;
    var f, f', c := FileOf(m, i), FileOf(m', i), EffectOf(m, Stored(o, data), m', i);
    if data == [] {
      assert Overlay(f.bytes, o, []) == f.bytes;
      assert c == Store(o, []);
    } else {
      StoredSizes(m, o, data, m', i);
      forall x | 0 <= x < |f.bytes|
        ensures f'.bytes[x] == Overlay(f.bytes, o, c.data)[x] && f'.under[x] == f.under[x]
      {
        StoredBytes(m, o, data, m', i, x);
      }
    }
  }

  lemma StoredSizes(m: Moment, o: nat, data: seq<Byte>, m': Moment, i: nat)
    requires Faulted(m.v, m.st, m'.v, m'.st, i, o, data)
    ensures m'.v.inodes == m.v.inodes
  {
  }

  lemma KeptEffect(m: Moment, e: Event, m': Moment, i: nat)
    requires Sane(m, i) && Follows(m, e, m', i) && (e.Elsewhere? || e.Saved?)
    ensures Effective(m, Keep(Unstray(m', i)), m', i)
  {
    hide Good, At, ByteAt, Backed, Written, Tracked, Faulted, Truncated, Reverted, Shape, Under;
    var f, f', saved := FileOf(m, i), FileOf(m', i), Unstray(m', i);
    forall x | 0 <= x < |f'.bytes|
      ensures f'.under[x] == Backing(f'.bytes, f.under, saved)[x]
    {
      InBlocks(m'.v, i, x);
      UnderFalls(m.v, m.st, m'.v, m'.st, i, x);
      assert f'.bytes[x] == ByteAt(m'.v, i, x);
    }
  }

  lemma RecycledEffect(m: Moment, b: nat, m': Moment, i: nat)
    requires Sane(m, i) && Follows(m, Recycled(b), m', i)
    ensures Effective(m, Lose(PlacesOf(m, i, b)), m', i)
  {
    hide Good, At, ByteAt, Backed, Under;
    var f, f', ks := FileOf(m, i), FileOf(m', i), PlacesOf(m, i, b);
    forall x | 0 <= x < |f.bytes|
      ensures f'.bytes[x] == Mixed(f.bytes, f.under, ks)[x] && f'.under[x] == f.under[x]
    {
      InBlocks(m.v, i, x);
    }
  }

  lemma FollowsEffect(m: Moment, e: Event, m': Moment, i: nat)
    requires Sane(m, i) && Follows(m, e, m', i)
    ensures Effective(m, EffectOf(m, e, m', i), m', i)
  {
    hide Effective, Sane, Written, Tracked, Faulted, Truncated, OthersSame, FallsAt, Reverted;
    match e
    case Wrote(off, src) => WroteEffect(m, off, src, m', i);
    case Stored(o, data) => StoredEffect(m, o, data, m', i);
    case Emptied => EmptiedEffect(m, m', i);
    case Elsewhere(_) => KeptEffect(m, e, m', i);
    case Saved(_) => KeptEffect(m, e, m', i);
    case Recycled(b) => RecycledEffect(m, b, m', i);
  }

  lemma EmptiedEffect(m: Moment, m': Moment, i: nat)
    requires Sane(m, i) && Follows(m, Emptied, m', i)
    ensures Effective(m, Truncate, m', i)
  {
    hide Good, At, ByteAt, Backed, Shape;
  }

  // ---------------------------------------------------------------- whole histories

  ghost function Effects(ms: seq<Moment>, es: seq<Event>, i: nat): (h: seq<Change>)
    requires History(ms, es, i)
    ensures |h| == |es|
  {
    seq(|es|, k requires 0 <= k < |es| => EffectOf(ms[k], es[k], ms[k + 1], i))
  }

  /** After any events, the file and what it falls back to are the first ones with the changes played
      over them. */
  lemma {:induction false} Replayed(ms: seq<Moment>, es: seq<Event>, i: nat)
    requires History(ms, es, i)
    ensures Sound(FileOf(ms[0], i), Effects(ms, es, i))
    ensures FileOf(ms[|es|], i) == Play(FileOf(ms[0], i), Effects(ms, es, i))
    decreases |es|
  {
    hide Sane, Follows, EffectOf, FileOf, Sound, Fits, Changed;
    var f, h := FileOf(ms[0], i), Effects(ms, es, i);
    if |es| == 0 {
      SoundNone(ms[0], i);
    } else {
      var n := |es| - 1;
      var ms', es' := ms[..n + 1], es[..n];
      assert (forall k :: 0 <= k <= n ==> ms'[k] == ms[k]) && (forall k :: 0 <= k < n ==> es'[k] == es[k]);
      Replayed(ms', es', i);
      assert h[..n] == Effects(ms', es', i) && h == h[..n] + [h[n]];
      FollowsEffect(ms[n], es[n], ms[n + 1], i);
      SoundSnoc(f, h[..n], h[n]);
    }
  }

  lemma SoundNone(m: Moment, i: nat)
    requires Sane(m, i)
    ensures Sound(FileOf(m, i), [])
  {
    hide Sane;
  }

  /** In any history of a volume, every byte of a file is that of the last write over it, counted or
      not, that has not been lost again, with no truncation since; or it was there from the start. */
  lemma LastWriter(ms: seq<Moment>, es: seq<Event>, i: nat, x: nat)
    requires History(ms, es, i) && x < |FileOf(ms[|es|], i).bytes|
    ensures LastWritten(FileOf(ms[0], i), Effects(ms, es, i), x, FileOf(ms[|es|], i).bytes[x])
  {
    hide Sane, Follows, Effects, LastWritten, FileOf, Sound;
    Replayed(ms, es, i);
    Explains(FileOf(ms[0], i), Effects(ms, es, i), x);
  }

  /** readi after a history returns the bytes that were written last. */
  method ReadLast(fs: Fs, i: nat, off: nat, n: nat, room: nat, ghost ms: seq<Moment>, ghost es: seq<Event>)
    returns (r: int, data: seq<Byte>)
    requires History(ms, es, i) && ms[|es|] == Moment(fs.V(), fs.stray)
    requires off < WORD_LIMIT && n < WORD_LIMIT
    modifies fs`blocks, fs`inodes, fs`logged, fs`stray
    ensures fs.V() == old(fs.V()) && fs.stray == old(fs.stray) && i in fs.inodes
    ensures r == -1 <==> off + n < WORD_LIMIT && off + room < fs.inodes[i].size && room < n
    ensures r != -1 ==> r == |data| <= n
    ensures 0 <= r < n && off <= fs.inodes[i].size && off + n < WORD_LIMIT ==> off + r == fs.inodes[i].size
    ensures r != -1 ==> forall x :: 0 <= x < |data| ==>
      LastWritten(FileOf(ms[0], i), Effects(ms, es, i), off + x, data[x])
  {
    hide Good, Contents, Follows, Effects, LastWritten, Shape, Backed;
    ghost var m := ms[|es|];
    assert Sane(m, i);
    r, data := fs.Readi(i, off, n, room);
    if r != -1 {
      forall x | 0 <= x < |data|
        ensures LastWritten(FileOf(ms[0], i), Effects(ms, es, i), off + x, data[x])
      {
        LastWriter(ms, es, i, off + x);
      }
    }
  }

  // ---------------------------------------------------------------- calls make histories

  lemma OneMore(ms: seq<Moment>, es: seq<Event>, e: Event, m: Moment, i: nat)
    requires History(ms, es, i) && Follows(ms[|es|], e, m, i)
    ensures History(ms + [m], es + [e], i)
  {
    hide Sane;
    assert Sane(m, i);
    hide Follows;
    var ms', es' := ms + [m], es + [e];
    forall k | 0 <= k < |es'|
      ensures Sane(ms'[k], i) && Follows(ms'[k], es'[k], ms'[k + 1], i)
    {
      if k < |es| {
        assert ms'[k] == ms[k] && ms'[k + 1] == ms[k + 1] && es'[k] == es[k];
      } else {
        assert ms'[k] == ms[k] && ms'[k + 1] == m && es'[k] == e;
      }
    }
  }

  /** The two events of a writei. */
  lemma WriteFollows(m: Moment, mid: Moment, m': Moment, i: nat, off: nat, r: nat, w: nat, src: seq<Byte>)
    requires Sane(m, i) && Sane(m', i) && r <= w <= |src| && Written(m.v, mid.v, i, off, r, r, src)
    requires Tracked(m.v, m.st, mid.v, mid.st, i, off, off + r)
    requires Faulted(mid.v, mid.st, m'.v, m'.st, i, off + r, src[r..w])
    ensures Sane(mid, i) && Follows(m, Wrote(off, src[..r]), mid, i)
    ensures Follows(mid, Stored(off + r, src[r..w]), m', i)
  {
    hide Good, Contents, Backed, Falls, At;
    assert Sane(mid, i) by { GoodShape(mid.v); }
    assert src[..r][..r] == src[..r];
  }

  /** A call of writei adds a whole write and, if it faults inside a block, a store to the history. */
  method WriteMore(fs: Fs, i: nat, off: nat, n: nat, src: seq<Byte>, ghost ms: seq<Moment>, ghost es: seq<Event>)
    returns (r: int, ghost w: nat, ghost ms': seq<Moment>, ghost es': seq<Event>)
    requires History(ms, es, i) && ms[|es|] == Moment(fs.V(), fs.stray)
    requires off < WORD_LIMIT && n < WORD_LIMIT && |src| <= n
    modifies fs
    ensures r == -1 <==> off > ms[|es|].v.inodes[i].size || off + n > MAXFILE * BSIZE
    ensures History(ms', es', i) && ms'[|es'|] == Moment(fs.V(), fs.stray)
    ensures r == -1 ==> es' == es
    ensures r != -1 ==> 0 <= r <= w <= |src| && es' == es + [Wrote(off, src[..r])] + [Stored(off + r, src[r..w])]
  {
    hide Good, Written, Tracked, Faulted, Shape, Backed, Starved, Follows, Chunks, NewChunks;
    ghost var m := ms[|es|];
    assert Sane(m, i);
    ghost var mid, safe;
    r, w, mid, safe := fs.Writei(i, off, n, src);
    ms', es' := ms, es;
    if r != -1 {
      ghost var m1, m2 := Moment(mid, safe), Moment(fs.V(), fs.stray);
      WrittenGood(m.v, m2.v, i, off, r, w, src);
      WriteFollows(m, m1, m2, i, off, r, w, src);
      OneMore(ms, es, Wrote(off, src[..r]), m1, i);
      ms', es' := ms + [m1], es + [Wrote(off, src[..r])];
      OneMore(ms', es', Stored(off + r, src[r..w]), m2, i);
      ms', es' := ms' + [m2], es' + [Stored(off + r, src[r..w])];
    }
  }

  lemma WrittenGood(v: Vol, v': Vol, i: nat, off: nat, r: nat, w: nat, src: seq<Byte>)
    requires Written(v, v', i, off, r, w, src)
    ensures Good(v') && v'.inodes.Keys == v.inodes.Keys
  {
    hide Good, Contents;
  }

  /** A writei of another file leaves the bytes of this one, and what they fall back to. */
  lemma ElseFollows(m: Moment, mid: Moment, m': Moment, i: nat, j: nat, off: nat, r: nat, w: nat, src: seq<Byte>)
    requires Sane(m, i) && Sane(m', i) && i != j && r <= w <= |src| && Written(m.v, m'.v, j, off, r, w, src)
    requires Written(m.v, mid.v, j, off, r, r, src) && Tracked(m.v, m.st, mid.v, mid.st, j, off, off + r)
    requires Faulted(mid.v, mid.st, m'.v, m'.st, j, off + r, src[r..w])
    ensures Follows(m, Elsewhere(j), m', i)
  {
    hide Contents, Backed, At, Placed, BitmapExact, NoHoles;
    forall k | 0 <= k < MAXFILE
      ensures FallsAt(m.v, m.st, m'.v, m'.st, i, k)
    {
      assert FallsAt(m.v, m.st, mid.v, mid.st, i, k);
      if src[r..w] != [] {
        FaultElsewhere(mid, m', j, off + r, src[r..w], i, k);
      }
    }
  }

  /** An unlogged store makes no block of another file stray. */
  lemma FaultElsewhere(m: Moment, m': Moment, j: nat, o: nat, data: seq<Byte>, i: nat, k: nat)
    requires Good(m.v) && Shape(m.v) && Shape(m'.v) && Faulted(m.v, m.st, m'.v, m'.st, j, o, data) && data != []
    requires i != j && i in m.v.inodes && k < MAXFILE
    ensures i in m'.v.inodes && At(m'.v, i, k) == At(m.v, i, k)
    ensures At(m.v, i, k) in m'.st ==> At(m.v, i, k) in m.st && m'.st[At(m.v, i, k)] == m.st[At(m.v, i, k)]
  {
    hide Good, Spliced;
    var b := At(m.v, j, o / BSIZE);
    DataPlace(m.v, j, o / BSIZE);
    PutDataKeeps(m.v, j, o / BSIZE, m'.v.blocks[b]);
    hide At;
  }

  /** A call of writei on another file adds an event that leaves this one. */
  method WriteOther(fs: Fs, j: nat, off: nat, n: nat, src: seq<Byte>, ghost ms: seq<Moment>, ghost es: seq<Event>,
                    ghost i: nat)
    returns (r: int, ghost ms': seq<Moment>, ghost es': seq<Event>)
    requires History(ms, es, i) && ms[|es|] == Moment(fs.V(), fs.stray) && i != j && j in fs.inodes
    requires off < WORD_LIMIT && n < WORD_LIMIT && |src| <= n
    modifies fs
    ensures History(ms', es', i) && ms'[|es'|] == Moment(fs.V(), fs.stray)
    ensures es' == if r == -1 then es else es + [Elsewhere(j)]
  {
    hide Good, Written, Tracked, Faulted, Shape, Backed, Starved, Follows, Chunks, NewChunks;
    ghost var m := ms[|es|];
    assert Sane(m, i);
    ghost var w, mid, safe;
    r, w, mid, safe := fs.Writei(j, off, n, src);
    ms', es' := ms, es;
    if r != -1 {
      ghost var m1, m2 := Moment(mid, safe), Moment(fs.V(), fs.stray);
      WrittenGood(m.v, m2.v, j, off, r, w, src);
      ElseFollows(m, m1, m2, i, j, off, r, w, src);
      OneMore(ms, es, Elsewhere(j), m2, i);
      ms', es' := ms + [m2], es + [Elsewhere(j)];
    }
  }

  /** So do itrunc and the recycling of a buffer. */
  method TruncateMore(fs: Fs, i: nat, ghost ms: seq<Moment>, ghost es: seq<Event>)
    returns (panic: bool, ghost ms': seq<Moment>, ghost es': seq<Event>)
    requires History(ms, es, i) && ms[|es|] == Moment(fs.V(), fs.stray)
    modifies fs
    ensures !panic && History(ms', es', i) && ms'[|es'|] == Moment(fs.V(), fs.stray) && es' == es + [Emptied]
  {
    hide Good, Truncated, Shape, Backed, Falls;
    ghost var m := ms[|es|];
    assert Sane(m, i);
    panic := fs.Itrunc(i);
    ghost var m' := Moment(fs.V(), fs.stray);
    EmptiedGood(m.v, m'.v, i);
    OneMore(ms, es, Emptied, m', i);
    ms', es' := ms + [m'], es + [Emptied];
  }

  lemma EmptiedGood(v: Vol, v': Vol, i: nat)
    requires Truncated(v, v', i)
    ensures Good(v') && i in v'.inodes
  {
    hide Good, At, Contents;
  }

  method SaveMore(fs: Fs, b: nat, ghost ms: seq<Moment>, ghost es: seq<Event>, ghost i: nat)
    returns (ghost ms': seq<Moment>, ghost es': seq<Event>)
    requires History(ms, es, i) && ms[|es|] == Moment(fs.V(), fs.stray)
    modifies fs`stray
    ensures History(ms', es', i) && ms'[|es'|] == Moment(fs.V(), fs.stray) && es' == es + [Saved(b)]
  {
    hide Good, Shape, Backed, Falls;
    assert Sane(ms[|es|], i);
    fs.Save(b);
    ghost var m' := Moment(fs.V(), fs.stray);
    OneMore(ms, es, Saved(b), m', i);
    ms', es' := ms + [m'], es + [Saved(b)];
  }

  method RecycleMore(fs: Fs, b: nat, ghost ms: seq<Moment>, ghost es: seq<Event>, ghost i: nat)
    returns (ghost ms': seq<Moment>, ghost es': seq<Event>)
    requires History(ms, es, i) && ms[|es|] == Moment(fs.V(), fs.stray)
    modifies fs`blocks, fs`stray
    ensures History(ms', es', i) && ms'[|es'|] == Moment(fs.V(), fs.stray)
    ensures es' == if b in old(fs.stray) then es + [Recycled(b)] else es
  {
    hide Good, Reverted, Shape, Backed;
    ghost var m := ms[|es|];
    assert Sane(m, i);
    ghost var was := b in fs.stray;
    fs.Recycle(b);
    ms', es' := ms, es;
    if was {
      ghost var m' := Moment(fs.V(), fs.stray);
      OneMore(ms, es, Recycled(b), m', i);
      ms', es' := ms + [m'], es + [Recycled(b)];
    }
  }

  // ---------------------------------------------------------------- writes that fault

  /** A write at offset off of a file of `size` bytes, of which k bytes can be read from the source
      and more are wanted, shows no byte that it does not count: the fault falls between two
      chunks, or all of the faulting chunk lies beyond the end of the file. */
  predicate Silent(size: nat, off: nat, k: nat) {
    Complete(off, k) == k || size <= off + Complete(off, k)
  }

  lemma CompleteFits(off: nat, k: nat)
    ensures Complete(off, k) <= k
  {
    if off / BSIZE != (off + k) / BSIZE {
      assert off < (off / BSIZE + 1) * BSIZE <= (off + k) / BSIZE * BSIZE;
    }
  }

  /** The file after the faulted write is the one that only the counted bytes would have made. */
  ghost predicate CountedOnly(s: seq<Byte>, off: nat, src: seq<Byte>)
    requires off <= |s|
  {
    CompleteFits(off, |src|);
    var r := Complete(off, |src|);
    Overlay(s, off, src)[..Max(|s|, off + r)] == Overlay(s, off, src[..r])
  }

  lemma SilentCounts(s: seq<Byte>, off: nat, src: seq<Byte>)
    requires off <= |s| && Silent(|s|, off, |src|)
    ensures CountedOnly(s, off, src)
  {
    CompleteFits(off, |src|);
    var r := Complete(off, |src|);
    assert Overlay(s, off, src)[..Max(|s|, off + r)] == Overlay(s, off, src[..r]);
  }

  lemma NoisyShows(s: seq<Byte>, off: nat, src: seq<Byte>)
    requires off <= |s| && !Silent(|s|, off, |src|) && Complete(off, |src|) < |src|
    requires src[Complete(off, |src|)] != s[off + Complete(off, |src|)]
    ensures !CountedOnly(s, off, src)
  {
    var r := Complete(off, |src|);
    assert Overlay(s, off, src)[off + r] != Overlay(s, off, src[..r])[off + r];
    assert Overlay(s, off, src)[..|s|][off + r] == Overlay(s, off, src)[off + r];
  }

  /** For a given size, offset and number of readable bytes, a faulted write leaves exactly the
      counted bytes, whatever the contents, if and only if it is silent. */
  lemma FaultedWrite(size: nat, off: nat, k: nat)
    requires off <= size
    ensures (forall s, src :: |s| == size && |src| == k ==> CountedOnly(s, off, src)) <==> Silent(size, off, k)
  {
    hide CountedOnly;
    CompleteFits(off, k);
    if Silent(size, off, k) {
      forall s, src | |s| == size && |src| == k
        ensures CountedOnly(s, off, src)
      {
        SilentCounts(s, off, src);
      }
    } else {
      var s: seq<Byte>, src: seq<Byte> := seq(size, _ => 0), seq(k, _ => 1);
      NoisyShows(s, off, src);
    }
  }

  /** The block of a position inside the file exists, so writei does not stop there for want of one. */
  lemma NotStarved(v: Vol, i: nat, off: nat, r: nat)
    requires Good(v) && i in v.inodes && off + r < v.inodes[i].size
    ensures !Starved(v, i, off, r)
  {
    hide At, Placed, BitmapExact, FullBelow;
    assert (off + r) / BSIZE * BSIZE <= off + r;
  }

  lemma InsideNotStarved(v: Vol, i: nat, off: nat, r: nat, k: nat)
    requires Good(v) && i in v.inodes && r <= k && off + Complete(off, k) < v.inodes[i].size
    ensures !Starved(v, i, off, r)
  {
    if r == 0 || (off + r) % BSIZE == 0 {
      Boundary(off, r, k);
      NotStarved(v, i, off, r);
    }
  }

  /** A writei of n bytes whose source faults after `src`, inside the file and not silently: it
      returns the number of bytes in complete chunks, and the file shows all of src. If the first
      uncounted byte differs from the one it replaces, that is not what the counted bytes make. */
  method FaultedCall(fs: Fs, i: nat, off: nat, n: nat, src: seq<Byte>) returns (r: int)
    requires Good(fs.V()) && i in fs.inodes && off <= fs.inodes[i].size && off + n <= MAXFILE * BSIZE && |src| < n
    requires !Silent(fs.inodes[i].size, off, |src|) && Shape(fs.V()) && Backed(fs.V(), fs.stray)
    modifies fs
    ensures r == Complete(off, |src|) && Shape(old(fs.V())) && Good(fs.V()) && Shape(fs.V()) && i in fs.inodes
    ensures var s := Contents(old(fs.V()), i);
      Contents(fs.V(), i) == Overlay(s, off, src)[..|s|] && fs.inodes[i].size == |s|
    ensures var s := Contents(old(fs.V()), i); r < |src| && (src[r] != s[off + r] ==> !CountedOnly(s, off, src))
  {
    hide Good, Contents, Shape, Starved, CountedOnly, OthersSame, Backed, Tracked, Faulted, Overlay;
    ghost var v, k := fs.V(), Complete(off, |src|);
    GoodShape(v);
    CompleteFits(off, |src|);
    ghost var w, mid, safe;
    r, w, mid, safe := fs.Writei(i, off, n, src);
    GoodShape(fs.V());
    assert fs.inodes[i].size >= v.inodes[i].size;
    InsideNotStarved(fs.V(), i, off, r, |src|);
    assert src[..w] == src;
    if src[k] != Contents(v, i)[off + k] {
      NoisyShows(Contents(v, i), off, src);
    }
  }

  /** Complete chunks end at block boundaries. */
  lemma Boundary(off: nat, r: nat, k: nat)
    requires r <= k && (r == 0 || (off + r) % BSIZE == 0)
    ensures r <= Complete(off, k)
  {
    if r > 0 {
      var q := (off + r) / BSIZE;
      assert off + r == q * BSIZE;
      assert q <= (off + k) / BSIZE;
      assert off / BSIZE < q;
    }
  }

  /** Recycling the buffer of the block in which a write faulted takes back exactly the bytes that were
      not counted, if the block was not stray before. */
  lemma FaultUndone(m: Moment, mid: Moment, m': Moment, m'': Moment, i: nat, off: nat, r: nat, w: nat, src: seq<Byte>)
    requires Sane(m, i) && Sane(m', i) && r < w <= |src| && Written(m.v, mid.v, i, off, r, r, src)
    requires Tracked(m.v, m.st, mid.v, mid.st, i, off, off + r)
    requires Faulted(mid.v, mid.st, m'.v, m'.st, i, off + r, src[r..w])
    requires off + r < m.v.inodes[i].size && At(m.v, i, (off + r) / BSIZE) !in m.st
    requires Follows(m', Recycled(At(mid.v, i, (off + r) / BSIZE)), m'', i)
    ensures Contents(m''.v, i) == Overlay(Contents(m.v, i), off, src[..r])
  {
    hide Good, Shape, Written, Tracked, Faulted, Reverted, Backed, Contents, Overlay, At;
    var o, data := off + r, src[r..w];
    FaultInBlock(mid, m', i, o, data);
    WriteFollows(m, mid, m', i, off, r, w, src);
    FaultSaved(m, mid, i, off, o, o / BSIZE);
    FaultPlace(mid, m', i, o, data);
    Undone(m, Wrote(off, src[..r]), mid, Stored(o, data), m', Recycled(At(mid.v, i, o / BSIZE)), m'', i);
  }

  lemma Undone(m: Moment, e: Event, mid: Moment, e': Event, m': Moment, e'': Event, m'': Moment, i: nat)
    requires Sane(m, i) && Sane(mid, i) && Sane(m', i) && e.Wrote? && e'.Stored? && e''.Recycled?
    requires Follows(m, e, mid, i) && Follows(mid, e', m', i) && Follows(m', e'', m'', i)
    requires e'.o % BSIZE + |e'.data| <= BSIZE && e'.o / BSIZE in Unstray(mid, i)
    requires PlacesOf(m', i, e''.b) == {e'.o / BSIZE}
    ensures Contents(m''.v, i) == Overlay(Contents(m.v, i), e.off, e.src)
  {
    hide Good, Shape, Backed, Written, Tracked, Faulted, Reverted, Beneath, Contents, Changed, Overlay;
    FollowsEffect(m, e, mid, i);
    FollowsEffect(mid, e', m', i);
    FollowsEffect(m', e'', m'', i);
    var c' := EffectOf(mid, e', m', i);
    LoseUndoes(FileOf(m, i), EffectOf(m, e, mid, i), c'.off, c'.data);
  }

  lemma FaultSaved(m: Moment, mid: Moment, i: nat, off: nat, o: nat, k: nat)
    requires Sane(m, i) && Sane(mid, i) && Tracked(m.v, m.st, mid.v, mid.st, i, off, o)
    requires k == o / BSIZE && o < m.v.inodes[i].size && k < MAXFILE && At(m.v, i, k) !in m.st
    ensures k in Unstray(mid, i)
  {
    hide Good, At, Backed;
    assert FallsAt(m.v, m.st, mid.v, mid.st, i, k);
    assert k * BSIZE <= o;
  }

  lemma FaultInBlock(m: Moment, m': Moment, i: nat, o: nat, data: seq<Byte>)
    requires Faulted(m.v, m.st, m'.v, m'.st, i, o, data) && data != []
    ensures o % BSIZE + |data| <= BSIZE && o / BSIZE < MAXFILE
  {
  }

  lemma FaultPlace(m: Moment, m': Moment, i: nat, o: nat, data: seq<Byte>)
    requires Sane(m, i) && Sane(m', i) && Faulted(m.v, m.st, m'.v, m'.st, i, o, data) && data != []
    ensures PlacesOf(m', i, At(m.v, i, o / BSIZE)) == {o / BSIZE}
  {
    hide Spliced, Backed;
    var k := o / BSIZE;
    var b := At(m.v, i, k);
    DataPlace(m.v, i, k);
    PutDataKeeps(m.v, i, k, m'.v.blocks[b]);
    hide Good, At;
    assert forall q :: 0 <= q < MAXFILE ==> At(m'.v, i, q) == At(m.v, i, q);
  }

  // ---------------------------------------------------------------- a volume

  /** A volume of four blocks, the last of which is the only block of file 1. */
  function Small(): Vol {
    Vol(Layout(4, 1, 2, 3),
        map[0 := Zeros(BSIZE), 1 := Zeros(BSIZE)[0 := 15], 2 := Zeros(BSIZE), 3 := Zeros(BSIZE)],
        map[1 := Inode(2, [3, 0, 0, 0, 0, 0, 0, 0, 0, 0, 0, 0, 0])])
  }

  lemma SmallBits(b: nat)
    requires b < 4
    ensures Bit(15, b)
  {
    assert Bit(15, 0) && Bit(7, 0) && Bit(3, 0) && Bit(1, 0);
    assert Bit(15, 1) && Bit(7, 1) && Bit(3, 1);
    assert Bit(15, 2) && Bit(7, 2);
  }

  lemma SmallAt(k: nat)
    requires k <= MAXFILE
    ensures Shape(Small()) && At(Small(), 1, k) == if k == 0 then 3 else 0
  {
    assert Shape(Small());
  }

  /** The invariant can be met, with a file in which a write can fault and show. */
  lemma GoodExists()
    ensures Good(Small()) && Backed(Small(), map[]) && 1 in Small().inodes && !Silent(Small().inodes[1].size, 0, 1)
  {
    var v := Small();
    SmallAt(0);
    forall k | 0 <= k <= MAXFILE
      ensures At(v, 1, k) == if k == 0 then 3 else 0
    {
      SmallAt(k);
    }
    hide At;
    assert Owned(v, 3);
    forall b | 0 <= b < 4
      ensures Marked(v, b)
    {
      SmallBits(b);
    }
  }

  // ---------------------------------------------------------------- filewrite and the log

  /** On a volume whose bitmap is one block, operations that log no more than a chunk of filewrite
      never overflow the log, however they interleave. */
  lemma ChunksFitLog(l: Layout, c: LogMachine.Setting, ss: seq<LogMachine.State>, sts: seq<LogMachine.Step>)
    requires LogMachine.IsRun(c, ss, sts) && c.a.size == LOGSIZE && c.limit == ChunkLimit(l) && l.size <= BPB
    ensures !ss[|sts|].panicked
  {
    LogMachine.NoOverflow(c, ss, sts);
  }
}
