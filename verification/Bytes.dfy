/** Bytes, the bits of a byte, and 32-bit words stored in blocks of bytes, lowest byte first. */
module Bytes {
  import opened Params

  const WORD_LIMIT: nat := 0x1_0000_0000

  /** Is bit k of x set? */
  predicate Bit(x: nat, k: nat)
    decreases k
  {
    if k == 0 then x % 2 == 1 else Bit(x / 2, k - 1)
  }

  /** x with bit k set. */
  function WithBit(x: nat, k: nat): nat
    decreases k
  {
    if k == 0 then x / 2 * 2 + 1 else 2 * WithBit(x / 2, k - 1) + x % 2
  }

  /** x with bit k cleared. */
  function WithoutBit(x: nat, k: nat): nat
    decreases k
  {
    if k == 0 then x / 2 * 2 else 2 * WithoutBit(x / 2, k - 1) + x % 2
  }

  lemma {:induction false} WithBitBits(x: nat, k: nat, j: nat)
    ensures Bit(WithBit(x, k), j) <==> j == k || Bit(x, j)
    decreases k
  {
    if k > 0 && j > 0 {
      WithBitBits(x / 2, k - 1, j - 1);
    }
  }

  lemma {:induction false} WithoutBitBits(x: nat, k: nat, j: nat)
    ensures Bit(WithoutBit(x, k), j) <==> j != k && Bit(x, j)
    decreases k
  {
    if k > 0 && j > 0 {
      WithoutBitBits(x / 2, k - 1, j - 1);
    }
  }

  function Pow2(k: nat): nat {
    if k == 0 then 1 else 2 * Pow2(k - 1)
  }

  /** A number of n bits stays one when a bit below n changes. */
  lemma {:induction false} BitsFit(x: nat, k: nat, n: nat)
    requires k < n && x < Pow2(n)
    ensures WithBit(x, k) < Pow2(n) && WithoutBit(x, k) < Pow2(n)
    decreases k
  {
    var h := Pow2(n - 1);
    assert Pow2(n) == 2 * h;
    assert x / 2 < h;
    if k > 0 {
      BitsFit(x / 2, k - 1, n - 1);
      var a, b := WithBit(x / 2, k - 1), WithoutBit(x / 2, k - 1);
      assert WithBit(x, k) == 2 * a + x % 2 && WithoutBit(x, k) == 2 * b + x % 2;
    }
  }

  lemma ByteFits(x: Byte, k: nat)
    requires k < 8
    ensures 0 <= WithBit(x, k) < 256 && 0 <= WithoutBit(x, k) < 256
  {
    assert Pow2(8) == 256 by {
      assert Pow2(4) == 16;
    }
    BitsFit(x, k, 8);
  }

  // ---------------------------------------------------------------- words

  /** Word i of a block. */
  function Word(d: seq<Byte>, i: nat): (w: nat)
    requires 4 * i + 4 <= |d|
    ensures w < WORD_LIMIT
  {
    var b0: int, b1: int, b2: int, b3: int := d[4 * i], d[4 * i + 1], d[4 * i + 2], d[4 * i + 3];
    b0 + 0x100 * b1 + 0x1_0000 * b2 + 0x100_0000 * b3
  }

  function PutWord(d: seq<Byte>, i: nat, w: nat): (r: seq<Byte>)
    requires 4 * i + 4 <= |d| && w < WORD_LIMIT
    ensures |r| == |d|
  {
    d[..4 * i] + [w % 0x100, w / 0x100 % 0x100, w / 0x1_0000 % 0x100, w / 0x100_0000] + d[4 * i + 4..]
  }

  lemma PutWordWords(d: seq<Byte>, i: nat, w: nat, j: nat)
    requires 4 * i + 4 <= |d| && w < WORD_LIMIT && 4 * j + 4 <= |d|
    ensures Word(PutWord(d, i, w), j) == if j == i then w else Word(d, j)
  {
    var r := PutWord(d, i, w);
    if j == i {
      assert r[4 * i] == w % 0x100 && r[4 * i + 1] == w / 0x100 % 0x100;
      assert r[4 * i + 2] == w / 0x1_0000 % 0x100 && r[4 * i + 3] == w / 0x100_0000;
      WordParts(w);
    } else if j < i {
      assert r[..4 * i] == d[..4 * i];
      assert forall x :: 4 * j <= x < 4 * j + 4 ==> r[x] == r[..4 * i][x];
      assert forall x :: 4 * j <= x < 4 * j + 4 ==> d[x] == d[..4 * i][x];
    } else {
      assert r[4 * i + 4..] == d[4 * i + 4..];
      assert forall x :: 4 * j <= x < 4 * j + 4 ==> r[x] == r[4 * i + 4..][x - 4 * i - 4];
      assert forall x :: 4 * j <= x < 4 * j + 4 ==> d[x] == d[4 * i + 4..][x - 4 * i - 4];
    }
  }

  lemma WordParts(w: nat)
    ensures w == w % 0x100 + 0x100 * (w / 0x100 % 0x100) + 0x1_0000 * (w / 0x1_0000 % 0x100) + 0x100_0000 * (w / 0x100_0000)
  {
    var w1, w2 := w / 0x100, w / 0x1_0000;
    assert w == 0x100 * w1 + w % 0x100;
    assert w2 == w1 / 0x100 && w1 == 0x100 * w2 + w1 % 0x100;
    assert w / 0x100_0000 == w2 / 0x100 && w2 == 0x100 * (w2 / 0x100) + w2 % 0x100;
  }

  function Zeros(n: nat): (d: seq<Byte>)
    ensures |d| == n && forall i :: 0 <= i < n ==> d[i] == 0
  {
    seq(n, _ => 0)
  }
}
