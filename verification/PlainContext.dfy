/** The reusable context of plain commitments: its invariant, and commit and verify over it. */
module PlainContext {
  import opened Bits
  import opened Toeplitz
  import opened ByteViews
  import opened PlainHm
  import Sha256

  // ----- bytes of word arrays

  /** Write byte i of a word array. */
  method StoreByte(a: array<Word>, i: nat, v: Byte)
    requires i < 4 * a.Length
    modifies a
    ensures forall k :: 0 <= k < 32 * a.Length ==>
      BitOf(a[..], k) == if 8 * i <= k < 8 * i + 8 then v[k - 8 * i] else old(BitOf(a[..], k))
  {
    ghost var before := a[..];
    var o := 8 * (i % 4);
    a[i / 4] := Splice(a[i / 4], o, v);
    forall k | 0 <= k < 32 * a.Length
      ensures BitOf(a[..], k) == if 8 * i <= k < 8 * i + 8 then v[k - 8 * i] else BitOf(before, k)
    {
      if k / 32 == i / 4 { assert k % 32 == k - 32 * (i / 4); }
    }
  }

  function Splice(w: Bits, o: nat, v: Bits): (r: Bits)
    requires |w| == 32 && |v| == 8 && o + 8 <= 32
    ensures |r| == 32 && forall j :: 0 <= j < 32 ==> r[j] == if o <= j < o + 8 then v[j - o] else w[j]
  {
    w[..o] + v + w[o + 8..]
  }

  /** memcpy into the memory of a word array. */
  method StoreBytes(a: array<Word>, src: Bytes)
    requires |src| <= 4 * a.Length
    modifies a
    ensures forall k :: 0 <= k < 32 * a.Length ==>
      BitOf(a[..], k) == if k < 8 * |src| then ByteBit(src, k) else old(BitOf(a[..], k))
  {
    var i := 0;
    while i < |src|
      invariant 0 <= i <= |src|
      invariant forall k :: 0 <= k < 32 * a.Length ==>
        BitOf(a[..], k) == if k < 8 * i then ByteBit(src, k) else old(BitOf(a[..], k))
    {
      ghost var before := a[..];
      StoreByte(a, i, src[i]);
      forall k | 0 <= k < 32 * a.Length
        ensures BitOf(a[..], k) == if k < 8 * (i + 1) then ByteBit(src, k) else old(BitOf(a[..], k))
      {
        assert BitOf(a[..], k) == if 8 * i <= k < 8 * i + 8 then src[i][k - 8 * i] else BitOf(before, k);
        if 8 * i <= k < 8 * i + 8 { assert k / 8 == i && k % 8 == k - 8 * i; }
      }
      i := i + 1;
    }
  }

  // ----- the context

  class HmContext {
    const n: nat
    const layout: Layout
    const A: array<Word>
    const r: array<Word>

    /** Sizes are the computed ones, matrix bits past the description are zero, and so are the bytes
        of the opening buffer past the opening. */
    ghost predicate Valid()
      reads A, r
    {
      && 0 < n <= MAX_MSG_BITLEN && layout == LayoutOf(n)
      && A != r && A.Length == layout.matrixWords && r.Length == layout.lWords
      && ZeroFrom(A[..], layout.matrixBitLen) && ZeroFrom(r[..], 8 * layout.openingLen)
    }

    /** context_allocate, for a length that has a layout. */
    constructor (n: nat)
      requires 0 < n <= MAX_MSG_BITLEN
      ensures Valid() && fresh(A) && fresh(r) && this.n == n
    {
      this.n := n;
      layout := LayoutOf(n);
      A := new Word[LayoutOf(n).matrixWords](_ => ZERO);
      r := new Word[LayoutOf(n).lWords](_ => ZERO);
    }
  }

  /** hm_context_create: rnd is what the random generator writes. */
  method ContextCreate(n: nat, rnd: Bytes) returns (ctx: HmContext?)
    requires ComputeSizes(n).Some? ==> |rnd| == LayoutOf(n).matrixLen
    ensures ctx == null <==> n == 0 || n > 10000000
    ensures ctx != null ==> fresh(ctx) && fresh(ctx.A) && fresh(ctx.r) && ctx.Valid() && ctx.n == n
                            && ctx.A[..] == ToWords(MaskLast(rnd, LayoutOf(n).matrixBitLen), LayoutOf(n).matrixWords)
  {
    if ComputeSizes(n).None? { return null; }
    LayoutFits(n, 0);
    ctx := new HmContext(n);
    var l := ctx.layout;
    StoreBytes(ctx.A, rnd);
    StoreByte(ctx.A, l.matrixLen - 1, MaskByte(rnd[l.matrixLen - 1], l.matrixBitLen));
    MaskedStore(ctx.A[..], rnd, l.matrixBitLen);
  }

  /** Storing a byte string and then its masked last byte stores the masked byte string. */
  lemma MaskedStore(w: seq<Word>, b: Bytes, bits: nat)
    requires 0 < |b| && bits <= 8 * |b| < bits + 8 && |b| <= 4 * |w|
    requires forall k :: 0 <= k < 32 * |w| ==>
      BitOf(w, k) == if 8 * (|b| - 1) <= k < 8 * |b|
                     then MaskByte(b[|b| - 1], bits)[k - 8 * (|b| - 1)]
                     else k < 8 * |b| && ByteBit(b, k)
    ensures w == ToWords(MaskLast(b, bits), |w|)
    ensures ZeroFrom(w, bits)
  {
    var m := MaskLast(b, bits);
    MaskLastBits(b, bits);
    forall k | 0 <= k < 8 * |b| ensures BitOf(w, k) == ByteBit(m, k) {
      if k / 8 == |b| - 1 { assert k % 8 == k - 8 * (|b| - 1); }
    }
    StoredWords(w, m);
  }

  /** hm_context_from_matrix. */
  method ContextFromMatrix(n: nat, matrix: Bytes) returns (ctx: HmContext?)
    ensures ctx != null <==>
      ComputeSizes(n).Some? && |matrix| == LayoutOf(n).matrixLen && ZeroPadded(matrix, LayoutOf(n).matrixBitLen)
    ensures ctx != null ==> fresh(ctx) && fresh(ctx.A) && fresh(ctx.r) && ctx.Valid() && ctx.n == n
                            && ctx.A[..] == ToWords(matrix, LayoutOf(n).matrixWords)
  {
    if ComputeSizes(n).None? || |matrix| != LayoutOf(n).matrixLen { return null; }
    LayoutFits(n, 0);
    var l := LayoutOf(n);
    LastByteDecides(matrix, l.matrixBitLen);
    if MaskByte(matrix[|matrix| - 1], l.matrixBitLen) != matrix[|matrix| - 1] { return null; }
    ctx := new HmContext(n);
    StoreBytes(ctx.A, matrix);
    StoredWords(ctx.A[..], matrix);
  }

  /** hm_context_export_matrix into a buffer of the given capacity. */
  method ContextExport(ctx: HmContext, out: array<Byte>, capacity: nat) returns (ok: bool)
    requires ctx.Valid() && capacity <= out.Length
    modifies out
    ensures ok <==> ctx.layout.matrixLen <= capacity
    ensures ok ==>
      && ctx.layout.matrixLen <= 4 * ctx.A.Length
      && out[..ctx.layout.matrixLen] == ToBytes(ctx.A[..], ctx.layout.matrixLen)
    ensures forall i :: (if ok then ctx.layout.matrixLen else 0) <= i < out.Length ==> out[i] == old(out[i])
  {
    LayoutFits(ctx.n, 0);
    if capacity < ctx.layout.matrixLen { return false; }
    LoadBytes(ctx.A, out, ctx.layout.matrixLen);
    ok := true;
  }

  /** memcpy of the first len bytes of a word array. */
  method LoadBytes(a: array<Word>, out: array<Byte>, len: nat)
    requires len <= 4 * a.Length && len <= out.Length
    modifies out
    ensures out[..len] == ToBytes(a[..], len)
    ensures forall i :: len <= i < out.Length ==> out[i] == old(out[i])
  {
    var i := 0;
    while i < len
      invariant 0 <= i <= len
      invariant forall j :: 0 <= j < i ==> out[j] == Sha256.ByteOf(a[j / 4], j % 4)
      invariant forall j :: i <= j < out.Length ==> out[j] == old(out[j])
    {
      out[i] := Sha256.ByteOf(a[i / 4], i % 4);
      i := i + 1;
    }
    ToBytesBits(a[..], out[..len]);
    SameBytes(out[..len], ToBytes(a[..], len));
  }

  /** Importing an exported matrix gives back the matrix, word for word. */
  lemma ExportImport(n: nat, A: seq<Word>)
    requires 0 < n <= MAX_MSG_BITLEN && |A| == LayoutOf(n).matrixWords && ZeroFrom(A, LayoutOf(n).matrixBitLen)
    ensures LayoutOf(n).matrixLen <= 4 * |A|
    ensures var m := ToBytes(A, LayoutOf(n).matrixLen);
      ZeroPadded(m, LayoutOf(n).matrixBitLen) && ToWords(m, LayoutOf(n).matrixWords) == A
  {
    LayoutFits(n, 0);
    StoredWords(A, ToBytes(A, LayoutOf(n).matrixLen));
  }

  // ----- commit and verify

  /** Row i of the word product is the bitwise row of the specification. */
  lemma RowIsMaskedBit(n: nat, A: seq<Word>, w: seq<Word>, opening: Bytes, message: Bytes, i: nat)
    requires 0 < n <= MAX_MSG_BITLEN && i < n && n <= 8 * |message| && |A| == LayoutOf(n).matrixWords
    requires |opening| == LayoutOf(n).openingLen && ZeroPadded(opening, LayoutOf(n).lBits)
    requires w == ToWords(opening, LayoutOf(n).lWords)
    ensures (n - 1 - i) / 32 + |w| < |A|
    ensures (RowSum(A, w, n - 1 - i, 32 * |w|) != ByteBit(message, i)) == MaskedBit(n, A, opening, message, i)
  {
    hide RowSum, BitOf, ByteBit, ToWords, LayoutOf;
    var l := LayoutOf(n);
    LayoutFits(n, i);
    WordsPadded(opening, |w|, l.lBits);
    assert n - 1 - i + 32 * |w| <= 32 * |A|;
    RowSumPadding(A, w, n - 1 - i, l.lBits, 32 * |w|);
  }

  lemma WordsPadded(b: Bytes, len: nat, bits: nat)
    requires ZeroPadded(b, bits)
    ensures forall j :: bits <= j < 32 * len ==> !BitOf(ToWords(b, len), j)
  {
    forall j | bits <= j < 32 * len ensures !BitOf(ToWords(b, len), j) {
      ToWordsBit(b, len, j);
    }
  }

  /** universal_hash_compute_b, into the first bytes of a buffer. */
  method ComputeB(n: nat, b: array<Byte>, A: seq<Word>, w: seq<Word>, message: Bytes, ghost opening: Bytes)
    requires 0 < n <= MAX_MSG_BITLEN && n <= 8 * |message| && |A| == LayoutOf(n).matrixWords
    requires |opening| == LayoutOf(n).openingLen && ZeroPadded(opening, LayoutOf(n).lBits)
    requires w == ToWords(opening, LayoutOf(n).lWords)
    requires LayoutOf(n).messageByteLen <= b.Length
    modifies b
    ensures b[..LayoutOf(n).messageByteLen] == MaskedMessage(n, A, opening, message)
    ensures forall k :: LayoutOf(n).messageByteLen <= k < b.Length ==> b[k] == old(b[k])
  {
    hide MaskedBit, RowSum;
    var len := LayoutOf(n).messageByteLen;
    LayoutFits(n, 0);
    ClearBytes(b, len);
    var i := 0;
    while i < n
      invariant 0 <= i <= n
      invariant forall k :: 0 <= k < i ==> ByteBit(b[..], k) == MaskedBit(n, A, opening, message, k)
      invariant forall k :: i <= k < 8 * len ==> !ByteBit(b[..], k)
      invariant forall k :: len <= k < b.Length ==> b[k] == old(b[k])
    {
      RowIsMaskedBit(n, A, w, opening, message, i);
      var row := RowProduct(A, w, n - 1 - i);
      assert i / 8 < len;
      OrBit(b, i, row != message[i / 8][i % 8]);
      i := i + 1;
    }
    var c := b[..len];
    forall k | 0 <= k < 8 * len ensures ByteBit(c, k) == ByteBit(b[..], k) {}
    MaskedMessageBits(n, A, opening, message, c);
  }

  /** memset to zero. */
  method ClearBytes(b: array<Byte>, len: nat)
    requires len <= b.Length
    modifies b
    ensures forall k :: 0 <= k < 8 * len ==> !ByteBit(b[..], k)
    ensures forall k :: len <= k < b.Length ==> b[k] == old(b[k])
  {
    var i := 0;
    while i < len
      invariant 0 <= i <= len
      invariant forall k :: 0 <= k < i ==> b[k] == Zeros(8)
      invariant forall k :: i <= k < b.Length ==> b[k] == old(b[k])
    {
      b[i] := Zeros(8);
      i := i + 1;
    }
    forall k | 0 <= k < 8 * len ensures !ByteBit(b[..], k) {
      assert b[k / 8] == Zeros(8);
    }
  }

  /** b[i/8] |= v << (i % 8). */
  method OrBit(b: array<Byte>, i: nat, v: bool)
    requires i < 8 * b.Length
    modifies b
    ensures forall k :: 0 <= k < 8 * b.Length ==> ByteBit(b[..], k) == (old(ByteBit(b[..], k)) || (k == i && v))
    ensures forall k :: 0 <= k < b.Length && k != i / 8 ==> b[k] == old(b[k])
  {
    ghost var before := b[..];
    b[i / 8] := b[i / 8][i % 8 := b[i / 8][i % 8] || v];
    forall k | 0 <= k < 8 * b.Length
      ensures ByteBit(b[..], k) == (ByteBit(before, k) || (k == i && v))
    {
      if k / 8 == i / 8 && k % 8 == i % 8 { assert k == i; }
    }
  }

  /** hm_commit: rnd is what the random generator writes. On success the buffers hold exactly the
      commitment and the opening, and nothing past them changes. */
  method Commit(ctx: HmContext, message: Bytes, commitment: array<Byte>, commitmentCapacity: nat,
                opening: array<Byte>, openingCapacity: nat, rnd: Bytes) returns (ok: bool)
    requires ctx.Valid() && ctx.n <= 8 * |message| && |rnd| == ctx.layout.openingLen
    requires commitmentCapacity <= commitment.Length && openingCapacity <= opening.Length && commitment != opening
    modifies ctx.r, commitment, opening
    ensures ctx.Valid()
    ensures ok <==> ctx.layout.commitmentLen <= commitmentCapacity && ctx.layout.openingLen <= openingCapacity
    ensures ok ==>
      && ctx.layout.openingLen > 0
      && opening[..ctx.layout.openingLen] == MaskLast(rnd, ctx.layout.lBits)
      && commitment[..ctx.layout.commitmentLen]
         == Commitment(ctx.n, ctx.A[..], MaskLast(rnd, ctx.layout.lBits), message)
    ensures forall i :: (if ok then ctx.layout.commitmentLen else 0) <= i < commitment.Length ==>
      commitment[i] == old(commitment[i])
    ensures forall i :: (if ok then ctx.layout.openingLen else 0) <= i < opening.Length ==>
      opening[i] == old(opening[i])
  {
    hide MaskedMessage, MaskLast, ToWords, ToBytes, Sha256.Sum;
    LayoutFits(ctx.n, 0);
    var l := ctx.layout;
    if commitmentCapacity < l.commitmentLen || openingCapacity < l.openingLen { return false; }
    SampleOpening(ctx, rnd);
    ghost var o := MaskLast(rnd, l.lBits);
    MaskLastBits(rnd, l.lBits);
    LoadBytes(ctx.r, opening, l.openingLen);
    LoadedBytes(ctx.r[..], o);
    ComputeB(ctx.n, commitment, ctx.A[..], ctx.r[..], message, o);
    CopyDigest(commitment, l.messageByteLen, Sha256.Sum(opening[..l.openingLen]));
    assert commitment[..l.commitmentLen]
        == commitment[..l.messageByteLen] + commitment[l.messageByteLen..l.commitmentLen];
    ok := true;
  }

  /** Fresh random bytes for the opening buffer, the last one masked; the rest of its last word is
      zero from before. */
  method SampleOpening(ctx: HmContext, rnd: Bytes)
    requires ctx.Valid() && |rnd| == ctx.layout.openingLen
    modifies ctx.r
    ensures ctx.Valid() && |rnd| > 0
    ensures ctx.r[..] == ToWords(MaskLast(rnd, ctx.layout.lBits), ctx.layout.lWords)
  {
    LayoutFits(ctx.n, 0);
    var l := ctx.layout;
    StoreBytes(ctx.r, rnd);
    StoreByte(ctx.r, l.openingLen - 1, MaskByte(rnd[l.openingLen - 1], l.lBits));
    MaskedStore(ctx.r[..], rnd, l.lBits);
  }

  method CopyDigest(b: array<Byte>, o: nat, d: Sha256.Digest)
    requires o + 32 <= b.Length
    modifies b
    ensures b[o..o + 32] == d
    ensures forall k :: 0 <= k < b.Length && !(o <= k < o + 32) ==> b[k] == old(b[k])
  {
    var i := 0;
    while i < 32
      invariant 0 <= i <= 32
      invariant forall k :: 0 <= k < i ==> b[o + k] == d[k]
      invariant forall k :: 0 <= k < b.Length && !(o <= k < o + i) ==> b[k] == old(b[k])
    {
      b[o + i] := d[i];
      i := i + 1;
    }
  }

  /** universal_hash_verify_message, leaving at the first bit that differs. */
  method VerifyMessage(n: nat, message: Bytes, b: Bytes, A: seq<Word>, w: seq<Word>, ghost opening: Bytes)
    returns (ok: bool)
    requires 0 < n <= MAX_MSG_BITLEN && n <= 8 * |message| && n <= 8 * |b| && |A| == LayoutOf(n).matrixWords
    requires |opening| == LayoutOf(n).openingLen && ZeroPadded(opening, LayoutOf(n).lBits)
    requires w == ToWords(opening, LayoutOf(n).lWords)
    ensures ok <==> forall i :: 0 <= i < n ==> MaskedBit(n, A, opening, message, i) == ByteBit(b, i)
  {
    hide MaskedBit, RowSum;
    var i := 0;
    while i < n
      invariant 0 <= i <= n
      invariant forall k :: 0 <= k < i ==> MaskedBit(n, A, opening, message, k) == ByteBit(b, k)
    {
      RowIsMaskedBit(n, A, w, opening, message, i);
      var row := RowProduct(A, w, n - 1 - i);
      var recovered := row != b[i / 8][i % 8];
      if recovered != message[i / 8][i % 8] {
        assert MaskedBit(n, A, opening, message, i) != ByteBit(b, i);
        return false;
      }
      i := i + 1;
    }
    ok := true;
  }

  /** hm_verify: size checks, canonical padding, digest, message bits, in that order; the opening
      buffer of the context changes only after the digest matched. */
  method Verify(ctx: HmContext, message: Bytes, commitment: Bytes, opening: Bytes) returns (ok: bool)
    requires ctx.Valid() && ctx.n <= 8 * |message|
    modifies ctx.r
    ensures ctx.Valid()
    ensures ok <==> Opens(ctx.n, ctx.A[..], message, commitment, opening)
  {
    hide MaskedBit, Sha256.Sum;
    LayoutFits(ctx.n, 0);
    var l := ctx.layout;
    if |commitment| != l.commitmentLen || |opening| != l.openingLen { return false; }
    var b := commitment[..l.messageByteLen];
    LastByteDecides(opening, l.lBits);
    LastByteDecides(b, ctx.n);
    if MaskByte(opening[|opening| - 1], l.lBits) != opening[|opening| - 1]
       || MaskByte(commitment[l.messageByteLen - 1], ctx.n) != commitment[l.messageByteLen - 1] {
      return false;
    }
    var digest := Sha256.Sum(opening);
    if commitment[l.messageByteLen..] != digest { return false; }
    StoreBytes(ctx.r, opening);
    StoredWords(ctx.r[..], opening);
    ok := VerifyMessage(ctx.n, message, b, ctx.A[..], ctx.r[..], opening);
  }

  // ----- whole histories of a context

  /** Every commitment opens: hm_verify on any context with the same matrix accepts what hm_commit
      produced. */
  lemma CommitmentOpens(n: nat, A: seq<Word>, message: Bytes, rnd: Bytes)
    requires 0 < n <= MAX_MSG_BITLEN && n <= 8 * |message| && |A| == LayoutOf(n).matrixWords
    requires |rnd| == LayoutOf(n).openingLen
    ensures |rnd| > 0
    ensures var o := MaskLast(rnd, LayoutOf(n).lBits);
      Opens(n, A, message, Commitment(n, A, o, message), o)
  {
    LayoutFits(n, 0);
    MaskLastBits(rnd, LayoutOf(n).lBits);
    OpensExact(n, A, message, Commitment(n, A, MaskLast(rnd, LayoutOf(n).lBits), message),
               MaskLast(rnd, LayoutOf(n).lBits));
  }

  /** Only the exported diagonal bits matter: matrices that agree on them give the same commitments. */
  lemma CommitmentDepends(n: nat, A: seq<Word>, B: seq<Word>, opening: Bytes, message: Bytes)
    requires 0 < n <= MAX_MSG_BITLEN && n <= 8 * |message|
    requires |A| == |B| == LayoutOf(n).matrixWords
    requires forall j :: 0 <= j < LayoutOf(n).matrixBitLen && j < 32 * |A| ==> BitOf(A, j) == BitOf(B, j)
    ensures Commitment(n, A, opening, message) == Commitment(n, B, opening, message)
  {
    hide MaskedBit, MaskedMessage, ByteBit, Sha256.Sum, LayoutOf, BitOf;
    forall i | 0 <= i < n ensures MaskedBit(n, A, opening, message, i) == MaskedBit(n, B, opening, message, i) {
      MaskedBitDepends(n, A, B, opening, message, i);
    }
    MaskedMessageBits(n, A, opening, message, MaskedMessage(n, A, opening, message));
    MaskedMessageBits(n, B, opening, message, MaskedMessage(n, A, opening, message));
  }

  lemma MaskedBitDepends(n: nat, A: seq<Word>, B: seq<Word>, opening: Bytes, message: Bytes, i: nat)
    requires 0 < n <= MAX_MSG_BITLEN && n <= 8 * |message| && i < n
    requires |A| == |B| == LayoutOf(n).matrixWords
    requires forall j :: 0 <= j < LayoutOf(n).matrixBitLen && j < 32 * |A| ==> BitOf(A, j) == BitOf(B, j)
    ensures MaskedBit(n, A, opening, message, i) == MaskedBit(n, B, opening, message, i)
  {
    hide RowSum, BitOf, ByteBit, ToWords;
    LayoutFits(n, i);
    var l := LayoutOf(n);
    var w := ToWords(opening, l.lWords);
    assert n - 1 - i + l.lBits <= l.matrixBitLen;
    RowSumDepends(A, B, w, w, n - 1 - i, l.lBits);
  }

  datatype Call =
    | CommitCall(message: Bytes, rnd: Bytes, commitmentCapacity: nat, openingCapacity: nat)
    | VerifyCall(message: Bytes, commitment: Bytes, opening: Bytes)

  datatype Outcome = Committed(commitment: Bytes, opening: Bytes) | Rejected | Verified(ok: bool)

  ghost predicate Fitting(n: nat, c: Call)
    requires 0 < n <= MAX_MSG_BITLEN
  {
    n <= 8 * |c.message| && (c.CommitCall? ==> |c.rnd| == LayoutOf(n).openingLen)
  }

  /** The outcome of one call on a context with matrix A, whatever happened before. */
  ghost function Expected(n: nat, A: seq<Word>, c: Call): Outcome
    requires 0 < n <= MAX_MSG_BITLEN && |A| == LayoutOf(n).matrixWords && Fitting(n, c)
  {
    LayoutFits(n, 0);
    match c
    case CommitCall(message, rnd, commitmentCapacity, openingCapacity) =>
      if commitmentCapacity < LayoutOf(n).commitmentLen || openingCapacity < LayoutOf(n).openingLen then Rejected
      else
        var o := MaskLast(rnd, LayoutOf(n).lBits);
        Committed(Commitment(n, A, o, message), o)
    case VerifyCall(message, commitment, opening) => Verified(Opens(n, A, message, commitment, opening))
  }

  /** Any sequence of commit and verify calls, rejected ones included: the matrix never changes, the zero padding of the
      opening buffer survives, and every outcome depends only on the matrix and that call. */
  method RunCalls(ctx: HmContext, calls: seq<Call>) returns (outcomes: seq<Outcome>)
    requires ctx.Valid() && forall i :: 0 <= i < |calls| ==> Fitting(ctx.n, calls[i])
    modifies ctx.r
    ensures ctx.Valid() && ctx.A[..] == old(ctx.A[..])
    ensures |outcomes| == |calls|
    ensures forall i :: 0 <= i < |calls| ==> outcomes[i] == Expected(ctx.n, ctx.A[..], calls[i])
  {
    hide Opens, LayoutOf, Expected;
    outcomes := [];
    var i := 0;
    while i < |calls|
      invariant 0 <= i <= |calls| && |outcomes| == i
      invariant ctx.Valid() && ctx.A[..] == old(ctx.A[..])
      invariant forall k :: 0 <= k < i ==> outcomes[k] == Expected(ctx.n, ctx.A[..], calls[k])
    {
      var o := RunCall(ctx, calls[i]);
      outcomes := outcomes + [o];
      i := i + 1;
    }
  }

  method RunCall(ctx: HmContext, c: Call) returns (o: Outcome)
    requires ctx.Valid() && Fitting(ctx.n, c)
    modifies ctx.r
    ensures ctx.Valid() && ctx.A[..] == old(ctx.A[..])
    ensures o == Expected(ctx.n, ctx.A[..], c)
  {
    hide Opens, Commitment, MaskLast;
    match c
    case CommitCall(message, rnd, commitmentCapacity, openingCapacity) =>
      var commitment := new Byte[commitmentCapacity](_ => Zeros(8));
      var opening := new Byte[openingCapacity](_ => Zeros(8));
      var ok := Commit(ctx, message, commitment, commitmentCapacity, opening, openingCapacity, rnd);
      if !ok { return Rejected; }
      o := Committed(commitment[..ctx.layout.commitmentLen], opening[..ctx.layout.openingLen]);
    case VerifyCall(message, commitment, opening) =>
      var ok := Verify(ctx, message, commitment, opening);
      o := Verified(ok);
  }

  /** What hm_commit produces verifies on a context imported from the exported matrix. */
  method CommitElsewhere(ctx: HmContext, message: Bytes, rnd: Bytes) returns (other: HmContext?, ok: bool)
    requires ctx.Valid() && ctx.n <= 8 * |message| && |rnd| == ctx.layout.openingLen
    modifies ctx.r
    ensures other != null && other.Valid() && other.A[..] == ctx.A[..]
    ensures ok
  {
    hide Opens, Commitment, MaskLast, ToWords, ToBytes, Sha256.Sum, MaskedBit;
    LayoutFits(ctx.n, 0);
    var o := RunCall(ctx, CommitCall(message, rnd, ctx.layout.commitmentLen, ctx.layout.openingLen));
    var matrix := new Byte[ctx.layout.matrixLen](_ => Zeros(8));
    var exported := ContextExport(ctx, matrix, matrix.Length);
    assert matrix[..matrix.Length] == matrix[..];
    ExportImport(ctx.n, ctx.A[..]);
    other := ContextFromMatrix(ctx.n, matrix[..]);
    CommitmentOpens(ctx.n, ctx.A[..], message, rnd);
    ok := Verify(other, message, o.commitment, o.opening);
  }
}
