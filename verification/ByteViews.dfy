/** Byte strings and word arrays as views of the same little-endian memory. */
module ByteViews {
  import opened Bits
  import Sha256

  type Bytes = seq<Byte>

  /** Bit i of a byte string, least significant bit of each byte first. */
  function ByteBit(b: seq<Byte>, i: nat): bool
    requires i < 8 * |b|
  {
    b[i / 8][i % 8]
  }

  /** The words a byte string occupies in zeroed memory. */
  function ToWords(b: Bytes, n: nat): (w: seq<Word>)
    ensures |w| == n
  {
    seq(n, i requires 0 <= i < n => WordFrom(b, i))
  }

  function WordFrom(b: Bytes, i: nat): (w: Word)
    ensures forall j :: 0 <= j < 32 ==> w[j] == (32 * i + j < 8 * |b| && ByteBit(b, 32 * i + j))
  {
    seq(32, j requires 0 <= j < 32 => 32 * i + j < 8 * |b| && ByteBit(b, 32 * i + j))
  }

  lemma ToWordsBit(b: Bytes, n: nat, k: nat)
    requires k < 32 * n
    ensures BitOf(ToWords(b, n), k) == (k < 8 * |b| && ByteBit(b, k))
  {}

  /** The first len bytes of words in memory. */
  function ToBytes(w: seq<Word>, len: nat): (b: Bytes)
    requires len <= 4 * |w|
    ensures |b| == len
    ensures forall k :: 0 <= k < 8 * len ==> ByteBit(b, k) == BitOf(w, k)
  {
    var b := seq(len, i requires 0 <= i < len => Sha256.ByteOf(w[i / 4], i % 4));
    assert forall k :: 0 <= k < 8 * len ==> ByteBit(b, k) == BitOf(w, k) by { ToBytesBits(w, b); }
    b
  }

  lemma ToBytesBits(w: seq<Word>, b: Bytes)
    requires |b| <= 4 * |w| && forall i :: 0 <= i < |b| ==> b[i] == Sha256.ByteOf(w[i / 4], i % 4)
    ensures forall k :: 0 <= k < 8 * |b| ==> ByteBit(b, k) == BitOf(w, k)
  {
    forall k | 0 <= k < 8 * |b| ensures ByteBit(b, k) == BitOf(w, k) {
      assert (k / 8) / 4 == k / 32 && 8 * ((k / 8) % 4) + k % 8 == k % 32;
    }
  }

  lemma ToBytesEntry(w: seq<Word>, len: nat, i: nat)
    requires len <= 4 * |w| && i < len
    ensures ToBytes(w, len)[i] == Sha256.ByteOf(w[i / 4], i % 4)
  {}

  lemma SameBytes(a: Bytes, b: Bytes)
    requires |a| == |b| && forall k :: 0 <= k < 8 * |a| ==> ByteBit(a, k) == ByteBit(b, k)
    ensures a == b
  {
    forall i | 0 <= i < |a| ensures a[i] == b[i] {
      forall j | 0 <= j < 8 ensures a[i][j] == b[i][j] {
        assert ByteBit(a, 8 * i + j) == ByteBit(b, 8 * i + j);
      }
    }
  }

  lemma SameWords(v: seq<Word>, w: seq<Word>)
    requires |v| == |w| && forall k :: 0 <= k < 32 * |v| ==> BitOf(v, k) == BitOf(w, k)
    ensures v == w
  {
    forall i | 0 <= i < |v| ensures v[i] == w[i] {
      forall j | 0 <= j < 32 ensures v[i][j] == w[i][j] {
        assert BitOf(v, 32 * i + j) == BitOf(w, 32 * i + j);
      }
    }
  }

  ghost predicate ZeroFrom(w: seq<Word>, bits: nat) {
    forall k :: bits <= k < 32 * |w| ==> !BitOf(w, k)
  }

  lemma StoredWords(w: seq<Word>, b: Bytes)
    requires 8 * |b| <= 32 * |w| && ZeroFrom(w, 8 * |b|) && forall k :: 0 <= k < 8 * |b| ==>
      BitOf(w, k) == ByteBit(b, k)
    ensures w == ToWords(b, |w|)
  {
    forall k | 0 <= k < 32 * |w| ensures BitOf(w, k) == BitOf(ToWords(b, |w|), k) {
      ToWordsBit(b, |w|, k);
    }
    SameWords(w, ToWords(b, |w|));
  }

  lemma LoadedBytes(w: seq<Word>, o: Bytes)
    requires |o| <= 4 * |w| && w == ToWords(o, |w|)
    ensures ToBytes(w, |o|) == o
  {
    forall k | 0 <= k < 8 * |o| ensures ByteBit(ToBytes(w, |o|), k) == ByteBit(o, k) {
      ToWordsBit(o, |w|, k);
    }
    SameBytes(ToBytes(w, |o|), o);
  }

  /** Words survive a trip through their bytes. */
  lemma WordsRoundTrip(w: seq<Word>)
    ensures ToWords(ToBytes(w, 4 * |w|), |w|) == w
  {
    StoredWords(w, ToBytes(w, 4 * |w|));
  }

  /** Bytes survive a trip through the words that hold them. */
  lemma BytesRoundTrip(b: Bytes, n: nat)
    requires |b| <= 4 * n
    ensures ToBytes(ToWords(b, n), |b|) == b
  {
    LoadedBytes(ToWords(b, n), b);
  }
}
