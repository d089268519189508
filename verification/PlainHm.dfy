/** Plain Halevi-Micali commitments with a reusable context. */
module PlainHm {
  import opened Bits
  import opened Toeplitz
  import opened ByteViews
  import Sha256

  const MAX_MSG_BITLEN: nat := 10000000
  const BINDING_SECURITY_BITS: nat := 256

  datatype Option<T> = None | Some(value: T)

  // ----- sizes

  datatype Layout = Layout(messageByteLen: nat, lBits: nat, openingLen: nat, lWords: nat, matrixBitLen: nat,
                           matrixLen: nat, matrixWords: nat, commitmentLen: nat)

  function CeilDiv(value: nat, divisor: nat): nat
    requires divisor > 0
  {
    value / divisor + (if value % divisor != 0 then 1 else 0)
  }

  /** compute_sizes. */
  function ComputeSizes(n: nat): (l: Option<Layout>)
    ensures l.None? <==> n == 0 || n > MAX_MSG_BITLEN
  {
    if n == 0 || n > MAX_MSG_BITLEN then None
    else
      var lBits := 4 * BINDING_SECURITY_BITS + 2 * n + 4;
      var lWords := CeilDiv(lBits, 32);
      var matrixBits := lBits + n - 1;
      Some(Layout(CeilDiv(n, 8), lBits, CeilDiv(lBits, 8), lWords, matrixBits, CeilDiv(matrixBits, 8),
                  (n - 1) / 32 + lWords + 1, CeilDiv(n, 8) + 32))
  }

  function LayoutOf(n: nat): Layout
    requires 0 < n <= MAX_MSG_BITLEN
  {
    ComputeSizes(n).value
  }

  /** The opening is four times as long as the digest that is written, plus twice the message and four
      bits; the last diagonal is the one of row 0 and the last opening bit. The layout holds every bit
      with less than a byte or a word to spare, leaves a lookahead word for every row and no more, has
      room for the matrix bytes, and no size overflows the source's int casts. */
  lemma LayoutFits(n: nat, i: nat)
    requires 0 < n <= MAX_MSG_BITLEN && i < n
    ensures var l := LayoutOf(n);
      && n <= 8 * l.messageByteLen < n + 8
      && l.lBits <= 8 * l.openingLen < l.lBits + 8 && l.openingLen <= 4 * l.lWords && 32 * l.lWords < l.lBits + 32
      && l.matrixBitLen <= 8 * l.matrixLen < l.matrixBitLen + 8 && l.matrixLen <= 4 * l.matrixWords
      && (n - 1 - i) / 32 + l.lWords < l.matrixWords && l.matrixWords == (n - 1) / 32 + l.lWords + 1
      && l.matrixBitLen == (n - 1) + l.lBits
      && l.lBits == 4 * (8 * (l.commitmentLen - l.messageByteLen)) + 2 * n + 4 && l.messageByteLen <= l.commitmentLen
      && 4 * l.matrixWords < 0x8000_0000
  {}

  /** hm_commit_sizes_t. */
  datatype Sizes = Sizes(commitmentLen: nat, openingLen: nat, matrixLen: nat)

  /** hm_commit_get_sizes: all sizes are zero when the length is rejected. */
  method CommitGetSizes(n: nat) returns (ok: bool, sizes: Sizes)
    ensures ok <==> 0 < n <= 10000000
    ensures sizes == if ok then Sizes((n + 7) / 8 + 32, (2 * n + 1035) / 8, (3 * n + 1034) / 8) else Sizes(0, 0, 0)
  {
    sizes := Sizes(0, 0, 0);
    var layout := ComputeSizes(n);
    if layout.None? { return false, sizes; }
    sizes := Sizes(layout.value.commitmentLen, layout.value.openingLen, layout.value.matrixLen);
    ok := true;
  }

  // ----- masked last bytes

  /** byte & last_byte_mask(bits). */
  function MaskByte(b: Byte, bits: nat): (m: Byte)
    ensures forall j :: 0 <= j < 8 ==> m[j] == (b[j] && (bits % 8 == 0 || j < bits % 8))
  {
    seq(8, j requires 0 <= j < 8 => b[j] && (bits % 8 == 0 || j < bits % 8))
  }

  /** No bit of b from position bits on is set. */
  predicate ZeroPadded(b: Bytes, bits: nat) {
    forall k :: bits <= k < 8 * |b| ==> !ByteBit(b, k)
  }

  /** The test of the source, on the last byte only, decides zero padding. */
  lemma LastByteDecides(b: Bytes, bits: nat)
    requires 0 < |b| && bits <= 8 * |b| < bits + 8
    ensures MaskByte(b[|b| - 1], bits) == b[|b| - 1] <==> ZeroPadded(b, bits)
  {
    var last := b[|b| - 1];
    var m := MaskByte(last, bits);
    if m == last {
      forall k | bits <= k < 8 * |b| ensures !ByteBit(b, k) {
        assert k / 8 == |b| - 1;
        assert last[k % 8] == m[k % 8];
      }
    }
    if ZeroPadded(b, bits) {
      forall j | 0 <= j < 8 ensures m[j] == last[j] {
        var k := 8 * (|b| - 1) + j;
        assert ByteBit(b, k) == last[j];
      }
    }
  }

  /** b with its last byte masked. */
  function MaskLast(b: Bytes, bits: nat): (m: Bytes)
    requires 0 < |b|
    ensures |m| == |b|
  {
    b[|b| - 1 := MaskByte(b[|b| - 1], bits)]
  }

  lemma MaskLastBits(b: Bytes, bits: nat)
    requires 0 < |b| && bits <= 8 * |b| < bits + 8
    ensures ZeroPadded(MaskLast(b, bits), bits)
    ensures forall k :: 0 <= k < bits ==> ByteBit(MaskLast(b, bits), k) == ByteBit(b, k)
  {
    var m := MaskLast(b, bits);
    forall k | 0 <= k < 8 * |b| ensures ByteBit(m, k) == (ByteBit(b, k) && k < bits) {
      if k / 8 == |b| - 1 { assert k % 8 < bits % 8 || bits % 8 == 0 <==> k < bits; }
    }
  }

  // ----- the commitment as a function

  /** The bits of the message masked by the matrix times the opening: row i starts at diagonal n-1-i. */
  function MaskedBit(n: nat, A: seq<Word>, opening: Bytes, message: Bytes, i: nat): bool
    requires 0 < n <= MAX_MSG_BITLEN && i < n && n <= 8 * |message| && |A| == LayoutOf(n).matrixWords
  {
    LayoutFits(n, i);
    RowSum(A, ToWords(opening, LayoutOf(n).lWords), n - 1 - i, LayoutOf(n).lBits) != ByteBit(message, i)
  }

  function MaskedByte(n: nat, A: seq<Word>, opening: Bytes, message: Bytes, k: nat): (b: Byte)
    requires 0 < n <= MAX_MSG_BITLEN && n <= 8 * |message| && |A| == LayoutOf(n).matrixWords
    ensures forall j :: 0 <= j < 8 ==> b[j] == (8 * k + j < n && MaskedBit(n, A, opening, message, 8 * k + j))
  {
    seq(8, j requires 0 <= j < 8 => 8 * k + j < n && MaskedBit(n, A, opening, message, 8 * k + j))
  }

  function MaskedMessage(n: nat, A: seq<Word>, opening: Bytes, message: Bytes): (b: Bytes)
    requires 0 < n <= MAX_MSG_BITLEN && n <= 8 * |message| && |A| == LayoutOf(n).matrixWords
    ensures |b| == LayoutOf(n).messageByteLen
  {
    seq(LayoutOf(n).messageByteLen,
        k requires 0 <= k < LayoutOf(n).messageByteLen => MaskedByte(n, A, opening, message, k))
  }

  function Commitment(n: nat, A: seq<Word>, opening: Bytes, message: Bytes): (c: Bytes)
    requires 0 < n <= MAX_MSG_BITLEN && n <= 8 * |message| && |A| == LayoutOf(n).matrixWords
    ensures |c| == LayoutOf(n).commitmentLen
  {
    MaskedMessage(n, A, opening, message) + Sha256.Sum(opening)
  }

  lemma MaskedMessageBits(n: nat, A: seq<Word>, opening: Bytes, message: Bytes, b: Bytes)
    requires 0 < n <= MAX_MSG_BITLEN && n <= 8 * |message| && |A| == LayoutOf(n).matrixWords
    requires |b| == LayoutOf(n).messageByteLen
    ensures b == MaskedMessage(n, A, opening, message)
      <==> ZeroPadded(b, n) && forall i :: 0 <= i < n ==> ByteBit(b, i) == MaskedBit(n, A, opening, message, i)
  {
    hide MaskedBit;
    LayoutFits(n, 0);
    var m := MaskedMessage(n, A, opening, message);
    forall k | 0 <= k < 8 * |b| ensures ByteBit(m, k) == (k < n && MaskedBit(n, A, opening, message, k)) {
      assert m[k / 8] == MaskedByte(n, A, opening, message, k / 8);
      assert 8 * (k / 8) + k % 8 == k;
    }
    if ZeroPadded(b, n) && forall i :: 0 <= i < n ==> ByteBit(b, i) == MaskedBit(n, A, opening, message, i) {
      SameBytes(b, m);
    }
  }

  /** What hm_verify decides: canonical sizes and padding, the digest, and the message bits. */
  predicate Opens(n: nat, A: seq<Word>, message: Bytes, commitment: Bytes, opening: Bytes)
    requires 0 < n <= MAX_MSG_BITLEN && n <= 8 * |message| && |A| == LayoutOf(n).matrixWords
  {
    var l := LayoutOf(n);
    LayoutFits(n, 0);
    && |commitment| == l.commitmentLen && |opening| == l.openingLen
    && ZeroPadded(opening, l.lBits) && ZeroPadded(commitment[..l.messageByteLen], n)
    && commitment[l.messageByteLen..] == Sha256.Sum(opening)
    && forall i :: 0 <= i < n ==> MaskedBit(n, A, opening, message, i) == ByteBit(commitment[..l.messageByteLen], i)
  }

  /** A commitment opens to a message exactly when the opening is canonical and committing to that
      message under that opening gives back the commitment. */
  lemma OpensExact(n: nat, A: seq<Word>, message: Bytes, commitment: Bytes, opening: Bytes)
    requires 0 < n <= MAX_MSG_BITLEN && n <= 8 * |message| && |A| == LayoutOf(n).matrixWords
    ensures Opens(n, A, message, commitment, opening) <==>
      && |opening| == LayoutOf(n).openingLen && ZeroPadded(opening, LayoutOf(n).lBits)
      && commitment == Commitment(n, A, opening, message)
  {
    hide MaskedBit, MaskedMessage, ZeroPadded, Sha256.Sum;
    var l := LayoutOf(n);
    if |commitment| == l.commitmentLen {
      MaskedMessageBits(n, A, opening, message, commitment[..l.messageByteLen]);
      assert commitment == commitment[..l.messageByteLen] + commitment[l.messageByteLen..];
      var c := Commitment(n, A, opening, message);
      assert c[..l.messageByteLen] == MaskedMessage(n, A, opening, message);
      assert c[l.messageByteLen..] == Sha256.Sum(opening);
    }
  }

  /** At most one n-bit message: two messages that open the same commitment under the same matrix and
      opening agree on all n bits. */
  lemma OpensOneMessage(n: nat, A: seq<Word>, m1: Bytes, m2: Bytes, commitment: Bytes, opening: Bytes)
    requires 0 < n <= MAX_MSG_BITLEN && n <= 8 * |m1| && n <= 8 * |m2| && |A| == LayoutOf(n).matrixWords
    requires Opens(n, A, m1, commitment, opening)
    ensures Opens(n, A, m2, commitment, opening) <==> forall i :: 0 <= i < n ==> ByteBit(m1, i) == ByteBit(m2, i)
  {
    hide RowSum, ByteBit, ZeroPadded, Sha256.Sum;
    var l := LayoutOf(n);
    forall i | 0 <= i < n
      ensures (MaskedBit(n, A, opening, m1, i) == MaskedBit(n, A, opening, m2, i)) <==> ByteBit(m1, i) == ByteBit(m2, i)
    {
      LayoutFits(n, i);
    }
  }

  /** Sizes, padding and digest of a commitment and an opening are right. */
  predicate Canonicals(n: nat, commitment: Bytes, opening: Bytes)
    requires 0 < n <= MAX_MSG_BITLEN
  {
    var l := LayoutOf(n);
    LayoutFits(n, 0);
    && |commitment| == l.commitmentLen && |opening| == l.openingLen
    && ZeroPadded(opening, l.lBits) && ZeroPadded(commitment[..l.messageByteLen], n)
    && commitment[l.messageByteLen..] == Sha256.Sum(opening)
  }

  ghost predicate OpensTo(n: nat, A: seq<Word>, message: Bytes, commitment: Bytes, opening: Bytes)
    requires 0 < n <= MAX_MSG_BITLEN && |A| == LayoutOf(n).matrixWords
  {
    n <= 8 * |message| && Opens(n, A, message, commitment, opening)
  }

  /** A commitment and an opening open to some message exactly when they are canonical and the digest
      matches: masking the masked bytes once more gives the message. */
  lemma OpensSomeMessage(n: nat, A: seq<Word>, commitment: Bytes, opening: Bytes)
    requires 0 < n <= MAX_MSG_BITLEN && |A| == LayoutOf(n).matrixWords
    ensures (exists message :: OpensTo(n, A, message, commitment, opening)) <==> Canonicals(n, commitment, opening)
  {
    hide RowSum, ByteBit, ZeroPadded, Sha256.Sum;
    LayoutFits(n, 0);
    if Canonicals(n, commitment, opening) {
      var b := commitment[..LayoutOf(n).messageByteLen];
      var message := MaskedMessage(n, A, opening, b);
      MaskedMessageBits(n, A, opening, b, message);
      forall i | 0 <= i < n ensures MaskedBit(n, A, opening, message, i) == ByteBit(b, i) {
        LayoutFits(n, i);
        assert ByteBit(message, i) == MaskedBit(n, A, opening, b, i);
      }
      assert OpensTo(n, A, message, commitment, opening);
    }
  }

  // ----- the matrix is Toeplitz

  /** The opening vector whose only set bit is bit j. */
  ghost predicate UnitVector(r: seq<Word>, j: nat) {
    j < 32 * |r| && forall k :: 0 <= k < 32 * |r| ==> BitOf(r, k) == (k == j)
  }

  lemma {:induction false} UnitRow(A: seq<Word>, r: seq<Word>, start: nat, n: nat, j: nat)
    requires n <= 32 * |r| && start + n <= 32 * |A| && UnitVector(r, j)
    ensures RowSum(A, r, start, n) == (j < n && BitOf(A, start + j))
  {
    if n > 0 { UnitRow(A, r, start, n - 1, j); }
  }

  /** Entry (i, j) of the matrix is what row i makes of opening bit j. */
  function Entry(n: nat, A: seq<Word>, i: nat, j: nat): bool
    requires 0 < n <= MAX_MSG_BITLEN && |A| == LayoutOf(n).matrixWords && i < n && j < LayoutOf(n).lBits
  {
    LayoutFits(n, i);
    BitOf(A, n - 1 - i + j)
  }

  lemma EntryExact(n: nat, A: seq<Word>, opening: Bytes, message: Bytes, i: nat, j: nat)
    requires 0 < n <= MAX_MSG_BITLEN && |A| == LayoutOf(n).matrixWords && i < n && j < LayoutOf(n).lBits
    requires n <= 8 * |message| && UnitVector(ToWords(opening, LayoutOf(n).lWords), j)
    ensures MaskedBit(n, A, opening, message, i) == (Entry(n, A, i, j) != ByteBit(message, i))
  {
    hide RowSum, BitOf, ByteBit, ToWords, UnitVector;
    LayoutFits(n, i);
    UnitRow(A, ToWords(opening, LayoutOf(n).lWords), n - 1 - i, LayoutOf(n).lBits, j);
  }

  /** Entries are constant along diagonals, and the exported bits are the last column of the first row
      down to the first column of the last. */
  lemma EntriesToeplitz(n: nat, A: seq<Word>, i: nat, j: nat)
    requires 0 < n <= MAX_MSG_BITLEN && |A| == LayoutOf(n).matrixWords && i + 1 < n && j + 1 < LayoutOf(n).lBits
    ensures Entry(n, A, i + 1, j + 1) == Entry(n, A, i, j)
  {}

  lemma DiagonalEnds(n: nat, A: seq<Word>)
    requires 0 < n <= MAX_MSG_BITLEN && |A| == LayoutOf(n).matrixWords
    ensures LayoutOf(n).matrixBitLen <= 32 * |A|
    ensures Entry(n, A, n - 1, 0) == BitOf(A, 0)
    ensures Entry(n, A, 0, LayoutOf(n).lBits - 1) == BitOf(A, LayoutOf(n).matrixBitLen - 1)
  {
    LayoutFits(n, 0);
  }
}
