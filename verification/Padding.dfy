/** Byte-level padding of one SHA-256 input or of each of its three shares. */
module Padding {
  import opened Bits
  import opened Sha256

  const ZERO_BYTE: Byte := Zeros(8)

  /** 0x80 */
  const END_BYTE: Byte := Zeros(7) + [true]

  /** Blocks for an input of len bytes, as the source computes it from the bit length. */
  function NumBlocks(len: nat): nat { (8 * len + 1 + 64 + 511) / 512 }

  /** NumBlocks is the least number of 64-byte blocks in which the end byte and the eight length
      bytes fit after the message. */
  lemma NumBlocksLeast(len: nat, n: nat)
    ensures len + 1 + 8 <= 64 * n <==> NumBlocks(len) <= n
  {}

  /** Byte i of a 64-bit number, most significant byte first. */
  function LengthByte(bits: nat, i: nat): Byte
    requires i < 8
  {
    FromNat(bits, 64)[56 - 8 * i..64 - 8 * i]
  }

  function PadByte(m: seq<Byte>, i: nat): Byte {
    var total := 64 * NumBlocks(|m|);
    if i < |m| then m[i]
    else if i == |m| then END_BYTE
    else if total - 8 <= i < total then LengthByte(8 * |m|, i - (total - 8))
    else ZERO_BYTE
  }

  function PadBytes(m: seq<Byte>): (p: seq<Byte>)
    ensures |p| == 64 * NumBlocks(|m|)
  {
    seq(64 * NumBlocks(|m|), i requires 0 <= i < 64 * NumBlocks(|m|) => PadByte(m, i))
  }

  lemma LengthBits(l: nat, i: nat)
    requires i < 64
    ensures LengthByte(l, i / 8)[7 - i % 8] == Reverse(FromNat(l, 64))[i]
  {
    assert 56 - 8 * (i / 8) + (7 - i % 8) == 63 - i;
  }

  lemma PadLength(m: Bits, len: nat)
    requires |m| == 8 * len
    ensures |Pad(m)| == 512 * NumBlocks(len)
    ensures |m| + 1 + PadZeros(|m|) == 512 * NumBlocks(len) - 64
  {
    hide FromNat, Reverse, PadZeros, NumBlocks, Zeros;
    PadZerosExact(len);
  }

  lemma PadZerosExact(len: nat)
    ensures 8 * len + 1 + PadZeros(8 * len) == 512 * NumBlocks(len) - 64
  {}

  lemma PadBit(m: seq<Byte>, i: nat)
    requires i < 512 * NumBlocks(|m|)
    ensures |Pad(BitString(m))| == 512 * NumBlocks(|m|)
    ensures BitString(PadBytes(m))[i] == Pad(BitString(m))[i]
  {
    PadLength(BitString(m), |m|);
    assert BitString(PadBytes(m))[i] == PadByte(m, i / 8)[7 - i % 8] by { hide Pad, PadByte, NumBlocks; }
    if i < 512 * NumBlocks(|m|) - 64 { PadFront(m, i); } else { PadTail(m, i); }
  }

  /** Before the length field: the message, the end bit, zeros. */
  lemma PadFront(m: seq<Byte>, i: nat)
    requires i < 512 * NumBlocks(|m|) - 64
    ensures |Pad(BitString(m))| == 512 * NumBlocks(|m|)
    ensures PadByte(m, i / 8)[7 - i % 8] == Pad(BitString(m))[i]
  {
    hide FromNat, Reverse, LengthByte, PadZeros, NumBlocks;
    PadLength(BitString(m), |m|);
  }

  lemma PadTail(m: seq<Byte>, i: nat)
    requires 512 * NumBlocks(|m|) - 64 <= i < 512 * NumBlocks(|m|)
    ensures |Pad(BitString(m))| == 512 * NumBlocks(|m|)
    ensures PadByte(m, i / 8)[7 - i % 8] == Pad(BitString(m))[i]
  {
    hide FromNat, Reverse, LengthByte, PadZeros, NumBlocks;
    var b, total := BitString(m), 64 * NumBlocks(|m|);
    PadLength(b, |m|);
    NumBlocksLeast(|m|, NumBlocks(|m|));
    var k := i - 8 * (total - 8);
    assert Pad(b)[i] == Reverse(FromNat(|b|, 64))[k];
    assert k / 8 == i / 8 - (total - 8) && k % 8 == i % 8;
    LengthBits(|b|, k);
  }

  /** Byte padding is the padding of section 5.1.1 on the bit string. */
  lemma PadBytesIsPad(m: seq<Byte>)
    ensures BitString(PadBytes(m)) == Pad(BitString(m))
  {
    var p, q := BitString(PadBytes(m)), Pad(BitString(m));
    PadLength(BitString(m), |m|);
    forall i | 0 <= i < |p| ensures p[i] == q[i] {
      PadBit(m, i);
    }
  }

  /** The sixteen words of block blk of a padded byte string. */
  function ChunkWords(p: seq<Byte>, blk: nat): (w: seq<Word>)
    requires 64 * blk + 64 <= |p|
    ensures |w| == 16
  {
    seq(16, j requires 0 <= j < 16 => LoadBE(p[64 * blk + 4 * j..64 * blk + 4 * j + 4]))
  }

  function Chunks(m: seq<Byte>): (c: seq<seq<Word>>)
    ensures |c| == NumBlocks(|m|) && forall i :: 0 <= i < |c| ==> |c[i]| == 16
  {
    seq(NumBlocks(|m|), blk requires 0 <= blk < NumBlocks(|m|) => ChunkWords(PadBytes(m), blk))
  }

  lemma LoadBEBit(b: seq<Byte>, i: nat)
    requires |b| == 4 && i < 32
    ensures LoadBE(b)[i] == b[3 - i / 8][i % 8]
  {}

  lemma ChunkWord(p: seq<Byte>, blk: nat, j: nat)
    requires 64 * blk + 64 <= |p| && j < 16
    ensures ChunkWords(p, blk)[j] == Reverse(BitString(p)[512 * blk + 32 * j..512 * blk + 32 * j + 32])
  {
    var s := p[64 * blk + 4 * j..64 * blk + 4 * j + 4];
    var r := Reverse(BitString(p)[512 * blk + 32 * j..512 * blk + 32 * j + 32]);
    forall i | 0 <= i < 32 ensures LoadBE(s)[i] == r[i] {
      LoadBEBit(s, i);
      var k := 512 * blk + 32 * j + (31 - i);
      assert r[i] == BitString(p)[k];
      assert k / 8 == 64 * blk + 4 * j + (3 - i / 8) && 7 - k % 8 == i % 8;
    }
  }

  lemma ChunkIsBlock(p: seq<Byte>, blk: nat)
    requires 64 * blk + 64 <= |p|
    ensures ChunkWords(p, blk) == ParseBlock(BitString(p)[512 * blk..512 * blk + 512])
  {
    var b := BitString(p)[512 * blk..512 * blk + 512];
    forall j | 0 <= j < 16 ensures ChunkWords(p, blk)[j] == ParseBlock(b)[j] {
      ChunkWord(p, blk, j);
      assert b[32 * j..32 * j + 32] == BitString(p)[512 * blk + 32 * j..512 * blk + 32 * j + 32];
    }
  }

  /** The blocks the source loads are the message blocks of section 5.2.1. */
  lemma ChunksAreParse(m: seq<Byte>)
    ensures Chunks(m) == Parse(Pad(BitString(m)))
  {
    hide ChunkWords, ParseBlock, Pad, PadByte, BitString;
    PadBytesIsPad(m);
    var p := PadBytes(m);
    forall blk | 0 <= blk < NumBlocks(|m|)
      ensures Chunks(m)[blk] == Parse(BitString(p))[blk]
    {
      ChunkIsBlock(p, blk);
    }
  }

  // ----- three shares

  ghost predicate SameLength(x: Triple<seq<Byte>>) { |x.p0| == |x.p1| == |x.p2| }

  function XorByte3(a: Byte, b: Byte, c: Byte): (r: Byte)
    ensures forall i :: 0 <= i < 8 ==> r[i] == ((a[i] != b[i]) != c[i])
  {
    XorBits(XorBits(a, b), c)
  }

  /** The byte string the three shares open to. */
  function XorBytes3(x: Triple<seq<Byte>>): (m: seq<Byte>)
    requires SameLength(x)
    ensures |m| == |x.p0|
    ensures forall i :: 0 <= i < |m| ==> m[i] == XorByte3(x.p0[i], x.p1[i], x.p2[i])
  {
    seq(|x.p0|, i requires 0 <= i < |x.p0| => XorByte3(x.p0[i], x.p1[i], x.p2[i]))
  }

  /** Block by block, the words of the three separately padded shares. */
  function ShareChunks(x: Triple<seq<Byte>>): (c: seq<seq<Triple<Word>>>)
    requires SameLength(x)
    ensures |c| == NumBlocks(|x.p0|) && forall i :: 0 <= i < |c| ==> |c[i]| == 16
  {
    var c0, c1, c2 := Chunks(x.p0), Chunks(x.p1), Chunks(x.p2);
    seq(|c0|,
        blk requires 0 <= blk < |c0| => seq(16, j requires 0 <= j < 16 => Triple(c0[blk][j], c1[blk][j], c2[blk][j])))
  }

  /** Padding the shares separately pads the message they open to. */
  lemma PaddedSharesOpen(x: Triple<seq<Byte>>, blk: nat, j: nat)
    requires SameLength(x) && blk < NumBlocks(|x.p0|) && j < 16
    ensures Xor3(ShareChunks(x)[blk][j]) == Chunks(XorBytes3(x))[blk][j]
  {
    hide PadByte, XorByte3, LoadBE;
    var m := XorBytes3(x);
    var l, r := Xor3(ShareChunks(x)[blk][j]), Chunks(m)[blk][j];
    var k := 64 * blk + 4 * j;
    forall i | 0 <= i < 32 ensures l[i] == r[i] {
      var b := k + (3 - i / 8);
      LoadBEBit(PadBytes(x.p0)[k..k + 4], i);
      LoadBEBit(PadBytes(x.p1)[k..k + 4], i);
      LoadBEBit(PadBytes(x.p2)[k..k + 4], i);
      LoadBEBit(PadBytes(m)[k..k + 4], i);
      PaddedByteOpens(x, b);
      assert r[i] == PadByte(m, b)[i % 8];
    }
  }

  lemma PaddedByteOpens(x: Triple<seq<Byte>>, i: nat)
    requires SameLength(x)
    ensures PadByte(XorBytes3(x), i) == XorByte3(PadByte(x.p0, i), PadByte(x.p1, i), PadByte(x.p2, i))
  {
    if i >= |x.p0| {
      var b := PadByte(x.p0, i);
      assert XorByte3(b, b, b) == b;
    }
  }
}
