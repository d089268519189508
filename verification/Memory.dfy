/** Little-endian views of word arrays, and the word-backed random vector of the protocol. */
module Memory {
  import opened Bits
  import opened Sha256
  import opened ByteViews

  function LoadLE(b: seq<Byte>): Word
    requires |b| == 4
  {
    Join(b[0], b[1], b[2], b[3])
  }

  function StoreLE(w: Word): (b: seq<Byte>)
    ensures |b| == 4
  {
    [ByteOf(w, 0), ByteOf(w, 1), ByteOf(w, 2), ByteOf(w, 3)]
  }

  lemma LoadStoreLE(w: Word)
    ensures LoadLE(StoreLE(w)) == w
  {}

  lemma StoreLoadLE(b: seq<Byte>)
    requires |b| == 4
    ensures StoreLE(LoadLE(b)) == b
  {
    var w := LoadLE(b);
    assert ByteOf(w, 0) == b[0] && ByteOf(w, 1) == b[1] && ByteOf(w, 2) == b[2] && ByteOf(w, 3) == b[3];
  }

  /** The words of a random tape: four little-endian bytes per gate. */
  function TapeOf(t: seq<Byte>): (w: seq<Word>)
    ensures |w| == |t| / 4
  {
    seq(|t| / 4, i requires 0 <= i < |t| / 4 => LoadLE(t[4 * i..4 * i + 4]))
  }

  // ----- the random vector r of lBits bits, held in words

  function LBytes(lBits: nat): nat { (lBits + 7) / 8 }

  function LWords(lBits: nat): nat { (lBits + 31) / 32 }

  /** They hold all bits, with less than a byte or a word to spare. */
  lemma LengthsTight(lBits: nat)
    ensures lBits <= 8 * LBytes(lBits) < lBits + 8
    ensures lBits <= 32 * LWords(lBits) < lBits + 32 && LBytes(lBits) <= 4 * LWords(lBits)
  {}

  type RVec = seq<Word>

  predicate IsRVec(r: RVec, lBits: nat) { |r| == LWords(lBits) }

  /** rvec_bytes: the first LBytes bytes of the words in memory. */
  function RBytes(r: RVec, lBits: nat): (b: seq<Byte>)
    requires IsRVec(r, lBits)
    ensures |b| == LBytes(lBits)
  {
    ToBytes(r, LBytes(lBits))
  }

  /** The hashed bytes of the three input shares. */
  function InputBytes(shares: Triple<RVec>, lBits: nat): Triple<Bytes>
    requires IsRVec(shares.p0, lBits) && IsRVec(shares.p1, lBits) && IsRVec(shares.p2, lBits)
  {
    Triple(RBytes(shares.p0, lBits), RBytes(shares.p1, lBits), RBytes(shares.p2, lBits))
  }

  /** mask_l_word: bits of the last word past lBits are dropped. */
  function MaskWord(w: Word, idx: nat, lBits: nat): (m: Word)
    ensures forall i :: 0 <= i < 32 ==> m[i] == (w[i] && (idx + 1 == LWords(lBits) ==> 32 * idx + i < lBits))
  {
    seq(32, i requires 0 <= i < 32 => w[i] && (idx + 1 == LWords(lBits) ==> 32 * idx + i < lBits))
  }

  /** rvec_normalize. */
  function Normalize(r: RVec, lBits: nat): (n: RVec)
    requires IsRVec(r, lBits)
    ensures IsRVec(n, lBits)
    ensures forall i :: 0 <= i < |r| ==> n[i] == MaskWord(r[i], i, lBits)
  {
    seq(|r|, i requires 0 <= i < |r| => MaskWord(r[i], i, lBits))
  }

  /** All bits past lBits are zero. */
  predicate Canonical(r: RVec, lBits: nat) {
    IsRVec(r, lBits) && forall j :: lBits <= j < 32 * |r| ==> !BitOf(r, j)
  }

  lemma NormalizeCanonical(r: RVec, lBits: nat)
    requires IsRVec(r, lBits)
    ensures Canonical(Normalize(r, lBits), lBits)
    ensures forall j :: 0 <= j < lBits ==> BitOf(Normalize(r, lBits), j) == BitOf(r, j)
  {
    var n := Normalize(r, lBits);
    forall j | 0 <= j < 32 * |r| ensures BitOf(n, j) == (BitOf(r, j) && j < lBits) {
      assert n[j / 32] == MaskWord(r[j / 32], j / 32, lBits);
      assert 32 * (j / 32) + j % 32 == j;
    }
  }

  /** The hashed bytes determine the vector: no bit of it is left out. */
  lemma RBytesInjective(r: RVec, s: RVec, lBits: nat)
    requires Canonical(r, lBits) && Canonical(s, lBits) && RBytes(r, lBits) == RBytes(s, lBits)
    ensures r == s
  {
    LengthsTight(lBits);
    forall k | 0 <= k < 32 * |r| ensures BitOf(r, k) == BitOf(s, k) {
      if k < lBits {
        assert ByteBit(RBytes(r, lBits), k) == BitOf(r, k) && ByteBit(RBytes(s, lBits), k) == BitOf(s, k);
      }
    }
    SameWords(r, s);
  }

  /** And every bit of the vector is a bit of the hashed bytes. */
  lemma RBytesBits(r: RVec, lBits: nat, k: nat)
    requires IsRVec(r, lBits) && k < lBits
    ensures k < 8 * |RBytes(r, lBits)| && ByteBit(RBytes(r, lBits), k) == BitOf(r, k)
  {}
}
