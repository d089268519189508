/** The universal hash on three shares: hash initialisation, the shared hash for any number of
    message bits, and the one-bit inner product the protocol uses. */
module SharedHash {
  import opened Bits
  import opened Shares
  import opened Memory
  import opened Toeplitz
  import opened ByteViews

  /** The matrix is long enough for every row of msgBits rows, with one word of lookahead. */
  predicate Fits(A: seq<Word>, lBits: nat, msgBits: nat) {
    msgBits > 0 && (msgBits - 1) / 32 + LWords(lBits) < |A|
  }

  /** A_WORDS: the words that rows start in, the words of r, and a padding word. */
  function AWords(lBits: nat, msgBits: nat): nat
    requires msgBits > 0
  {
    (msgBits - 1 + 31) / 32 + LWords(lBits) + 1
  }

  /** That is enough for every row, whatever the number of message bits, with less than a word of row
      starts to spare. */
  lemma AWordsFit(A: seq<Word>, lBits: nat, msgBits: nat, i: nat)
    requires i < msgBits && |A| == AWords(lBits, msgBits)
    ensures Fits(A, lBits, msgBits) && i + lBits <= 32 * (|A| - 1)
    ensures |A| > LWords(lBits) && msgBits - 1 <= 32 * (|A| - LWords(lBits) - 1) < msgBits - 1 + 32
  {}

  /** Row i of the matrix times the vector r. */
  function RowTimes(A: seq<Word>, r: RVec, lBits: nat, i: nat): bool
    requires IsRVec(r, lBits) && i / 32 + LWords(lBits) < |A|
  {
    RowSum(A, Normalize(r, lBits), i, 32 * LWords(lBits))
  }

  /** RowTimes is the bitwise product over the lBits bits of r: bits of r past lBits, the lookahead
      word and the matrix past the row do not matter. */
  lemma RowTimesBits(A: seq<Word>, r: RVec, lBits: nat, i: nat)
    requires IsRVec(r, lBits) && i / 32 + LWords(lBits) < |A|
    ensures i + lBits <= 32 * |A| && RowTimes(A, r, lBits, i) == RowSum(A, r, i, lBits)
  {
    NormalizeCanonical(r, lBits);
    var n := Normalize(r, lBits);
    assert forall j :: 0 <= j < 32 * |r| ==> BitOf(n, j) == BitOf(n, j);
    assert forall j :: 0 <= j < 32 * |r| ==> BitOf(r, j) == BitOf(r, j);
    RowSumPadding(A, n, i, lBits, 32 * LWords(lBits));
    RowSumDepends(A, A, n, r, i, lBits);
  }

  /** The XOR of three vectors. */
  function XorVec3(r: Triple<RVec>): (x: RVec)
    requires |r.p0| == |r.p1| == |r.p2|
    ensures |x| == |r.p0|
  {
    XorWords(XorWords(r.p0, r.p1), r.p2)
  }

  ghost predicate ShareVectors(r: Triple<RVec>, lBits: nat) {
    IsRVec(r.p0, lBits) && IsRVec(r.p1, lBits) && IsRVec(r.p2, lBits)
  }

  /** The row product of the opened vector is the XOR of the row products of the shares. */
  lemma RowTimesOpens(A: seq<Word>, r: Triple<RVec>, lBits: nat, i: nat)
    requires ShareVectors(r, lBits) && i / 32 + LWords(lBits) < |A|
    ensures RowTimes(A, XorVec3(r), lBits, i)
         == ((RowTimes(A, r.p0, lBits, i) != RowTimes(A, r.p1, lBits, i)) != RowTimes(A, r.p2, lBits, i))
  {
    RowTimesBits(A, XorVec3(r), lBits, i);
    RowTimesBits(A, r.p0, lBits, i);
    RowTimesBits(A, r.p1, lBits, i);
    RowTimesBits(A, r.p2, lBits, i);
    RowSumLinear(A, XorWords(r.p0, r.p1), r.p2, i, lBits);
    RowSumLinear(A, r.p0, r.p1, i, lBits);
  }

  // ----- computing one row

  /** The loop over the words of r: one row, masking the last word. */
  method RowLoop(A: seq<Word>, r: RVec, lBits: nat, i: nat) returns (bit: bool)
    requires IsRVec(r, lBits) && i / 32 + LWords(lBits) < |A|
    ensures bit == RowTimes(A, r, lBits, i)
  {
    hide Window, And;
    ghost var n := Normalize(r, lBits);
    var acc: Word := ZERO;
    ParityZeros(32);
    var j := 0;
    while j < LWords(lBits)
      invariant 0 <= j <= LWords(lBits)
      invariant Parity(acc) == RowSum(A, n, i, 32 * j)
    {
      var next := Xor(acc, And(Window(A, i / 32 + j, i % 32), MaskWord(r[j], j, lBits)));
      MaskedEntry(r, j, lBits);
      RowSumStep(A, n, i, j, acc, next);
      acc := next;
      j := j + 1;
    }
    bit := Parity(acc);
  }

  lemma MaskedEntry(r: RVec, j: nat, lBits: nat)
    requires IsRVec(r, lBits) && j < |r|
    ensures Normalize(r, lBits)[j] == MaskWord(r[j], j, lBits)
  {}

  /** mpc_hm_hash_init after expanding the matrix: bit i of b becomes row i times r, XOR bit i of the
      message; the other bits of b keep whatever value they had. */
  method HashInit(A: seq<Word>, b: array<Byte>, m: seq<Byte>, r: RVec, lBits: nat, msgBits: nat)
    requires IsRVec(r, lBits) && Fits(A, lBits, msgBits)
    requires msgBits <= 8 * b.Length && msgBits <= 8 * |m|
    modifies b
    ensures forall i :: 0 <= i < msgBits ==> ByteBit(b[..], i) == (RowTimes(A, r, lBits, i) != ByteBit(m, i))
    ensures forall i :: msgBits <= i < 8 * b.Length ==> ByteBit(b[..], i) == old(ByteBit(b[..], i))
  {
    hide RowTimes;
    var i := 0;
    while i < msgBits
      invariant 0 <= i <= msgBits
      invariant forall k :: 0 <= k < i ==> ByteBit(b[..], k) == (RowTimes(A, r, lBits, k) != ByteBit(m, k))
      invariant forall k :: i <= k < 8 * b.Length ==> ByteBit(b[..], k) == old(ByteBit(b[..], k))
    {
      var row := RowLoop(A, r, lBits, i);
      var bi := row != m[i / 8][i % 8];
      SetBit(b, i, bi);
      i := i + 1;
    }
  }

  /** SETBIT on bit i of a byte buffer. */
  method SetBit(b: array<Byte>, i: nat, v: bool)
    requires i < 8 * b.Length
    modifies b
    ensures forall k :: 0 <= k < 8 * b.Length ==> ByteBit(b[..], k) == if k == i then v else old(ByteBit(b[..], k))
  {
    ghost var before := b[..];
    b[i / 8] := b[i / 8][i % 8 := v];
    forall k | 0 <= k < 8 * b.Length
      ensures ByteBit(b[..], k) == if k == i then v else ByteBit(before, k)
    {
      if k / 8 == i / 8 && k % 8 == i % 8 { assert k == i; }
    }
  }

  // ----- the shared hash, for any number of message bits

  /** Bit i of one party's output share. */
  function HashBit(A: seq<Word>, m: seq<Word>, r: RVec, lBits: nat, i: nat): bool
    requires IsRVec(r, lBits) && i / 32 + LWords(lBits) < |A| && i < 32 * |m|
  {
    RowTimes(A, r, lBits, i) != BitOf(m, i)
  }

  lemma RowInside(A: seq<Word>, lBits: nat, msgBits: nat, i: nat)
    requires Fits(A, lBits, msgBits) && i < msgBits
    ensures i / 32 + LWords(lBits) < |A|
  {}

  /** One party's column of mpc_universal_hash_prove. */
  method HashShare(A: seq<Word>, m: seq<Word>, r: RVec, lBits: nat, msgBits: nat) returns (y: seq<Word>)
    requires IsRVec(r, lBits) && Fits(A, lBits, msgBits) && |m| == (msgBits + 31) / 32
    ensures |y| == |m|
    ensures forall i :: 0 <= i < msgBits ==> i / 32 + LWords(lBits) < |A| && BitOf(y, i) == HashBit(A, m, r, lBits, i)
    ensures forall i :: msgBits <= i < 32 * |m| ==> !BitOf(y, i)
  {
    hide RowTimes;
    var out := new Word[|m|](_ => ZERO);
    var i := 0;
    while i < msgBits
      invariant 0 <= i <= msgBits
      invariant forall k :: 0 <= k < i ==>
        k / 32 + LWords(lBits) < |A| && BitOf(out[..], k) == HashBit(A, m, r, lBits, k)
      invariant forall k :: i <= k < 32 * |m| ==> !BitOf(out[..], k)
    {
      RowInside(A, lBits, msgBits, i);
      var row := RowLoop(A, r, lBits, i);
      ghost var before := out[..];
      out[i / 32] := out[i / 32][i % 32 := row != m[i / 32][i % 32]];
      forall k | 0 <= k < 32 * |m| && k != i ensures BitOf(out[..], k) == BitOf(before, k) {
        OtherBit(i, k);
      }
      i := i + 1;
    }
    y := out[..];
  }

  lemma OtherBit(i: nat, k: nat)
    requires i != k
    ensures i / 32 != k / 32 || i % 32 != k % 32
  {}

  /** mpc_universal_hash_prove, for the three parties. */
  method UniversalHashProve(A: seq<Word>, m: Triple<seq<Word>>, r: Triple<RVec>, lBits: nat, msgBits: nat)
    returns (y: Triple<seq<Word>>)
    requires ShareVectors(r, lBits) && Fits(A, lBits, msgBits)
    requires |m.p0| == |m.p1| == |m.p2| == (msgBits + 31) / 32
    ensures |y.p0| == |y.p1| == |y.p2| == |m.p0|
    ensures HashShares(A, m, r, lBits, msgBits, y)
    ensures forall i :: msgBits <= i < 32 * |m.p0| ==> !BitOf(y.p0, i) && !BitOf(y.p1, i) && !BitOf(y.p2, i)
  {
    hide HashBit, RowTimes;
    var y0 := HashShare(A, m.p0, r.p0, lBits, msgBits);
    var y1 := HashShare(A, m.p1, r.p1, lBits, msgBits);
    var y2 := HashShare(A, m.p2, r.p2, lBits, msgBits);
    y := Triple(y0, y1, y2);
  }

  /** y holds the output shares of all three parties on every message bit. */
  ghost predicate HashShares(A: seq<Word>, m: Triple<seq<Word>>, r: Triple<RVec>, lBits: nat, msgBits: nat,
                             y: Triple<seq<Word>>)
    requires ShareVectors(r, lBits) && Fits(A, lBits, msgBits)
    requires |m.p0| == |m.p1| == |m.p2| == |y.p0| == |y.p1| == |y.p2| == (msgBits + 31) / 32
  {
    forall i :: 0 <= i < msgBits ==> HashSharesAt(A, m, r, lBits, msgBits, y, i)
  }

  ghost predicate HashSharesAt(A: seq<Word>, m: Triple<seq<Word>>, r: Triple<RVec>, lBits: nat, msgBits: nat,
                               y: Triple<seq<Word>>, i: nat)
    requires ShareVectors(r, lBits) && Fits(A, lBits, msgBits) && i < msgBits
    requires |m.p0| == |m.p1| == |m.p2| == |y.p0| == |y.p1| == |y.p2| == (msgBits + 31) / 32
  {
    && BitOf(y.p0, i) == HashBit(A, m.p0, r.p0, lBits, i)
    && BitOf(y.p1, i) == HashBit(A, m.p1, r.p1, lBits, i)
    && BitOf(y.p2, i) == HashBit(A, m.p2, r.p2, lBits, i)
  }

  /** What mpc_universal_hash_verify checks on message bit i, for challenge e. */
  ghost predicate HashCheck(A: seq<Word>, b: seq<Byte>, m: Pair<seq<Word>>, r: Pair<RVec>, lBits: nat,
                            y: Triple<seq<Word>>, e: nat, i: nat)
    requires IsRVec(r.own, lBits) && IsRVec(r.next, lBits) && i / 32 + LWords(lBits) < |A|
    requires i < 32 * |m.own| && |m.own| == |m.next| == |y.p0| == |y.p1| == |y.p2| && i < 8 * |b|
  {
    var own, next := HashBit(A, m.own, r.own, lBits, i), HashBit(A, m.next, r.next, lBits, i);
    && BitOf(y.At(e), i) == own && BitOf(y.At(e + 1), i) == next
    && ((own != next) != BitOf(y.At(e + 2), i)) == ByteBit(b, i)
  }

  /** mpc_universal_hash_verify, leaving at the first bit that does not match. */
  method UniversalHashVerify(A: seq<Word>, b: seq<Byte>, m: Pair<seq<Word>>, r: Pair<RVec>, lBits: nat, msgBits: nat,
                             y: Triple<seq<Word>>, e: nat) returns (ok: bool)
    requires IsRVec(r.own, lBits) && IsRVec(r.next, lBits) && Fits(A, lBits, msgBits)
    requires |m.own| == |m.next| == |y.p0| == |y.p1| == |y.p2| == (msgBits + 31) / 32 && msgBits <= 8 * |b|
    ensures forall i :: 0 <= i < msgBits ==> i / 32 + LWords(lBits) < |A|
    ensures ok <==> forall i :: 0 <= i < msgBits ==> HashCheck(A, b, m, r, lBits, y, e, i)
  {
    hide RowTimes;
    forall i | 0 <= i < msgBits ensures i / 32 + LWords(lBits) < |A| { RowInside(A, lBits, msgBits, i); }
    var i := 0;
    while i < msgBits
      invariant 0 <= i <= msgBits
      invariant forall k :: 0 <= k < i ==> HashCheck(A, b, m, r, lBits, y, e, k)
    {
      var own := RowLoop(A, r.own, lBits, i);
      var next := RowLoop(A, r.next, lBits, i);
      own := own != m.own[i / 32][i % 32];
      next := next != m.next[i / 32][i % 32];
      if y.At(e)[i / 32][i % 32] != own || y.At(e + 1)[i / 32][i % 32] != next {
        assert !HashCheck(A, b, m, r, lBits, y, e, i);
        return false;
      }
      if ((own != next) != y.At(e + 2)[i / 32][i % 32]) != b[i / 8][i % 8] {
        assert !HashCheck(A, b, m, r, lBits, y, e, i);
        return false;
      }
      i := i + 1;
    }
    ok := true;
  }

  /** All three checks of bit i pass exactly when the recorded shares are the computed ones and the
      opened hash, row i times r XOR bit i of the message, is bit i of b. */
  lemma HashChecksExact(A: seq<Word>, b: seq<Byte>, m: Triple<seq<Word>>, r: Triple<RVec>, lBits: nat, msgBits: nat,
                        y: Triple<seq<Word>>, i: nat)
    requires ShareVectors(r, lBits) && Fits(A, lBits, msgBits) && i < msgBits && i / 32 + LWords(lBits) < |A|
    requires |m.p0| == |m.p1| == |m.p2| == |y.p0| == |y.p1| == |y.p2| == (msgBits + 31) / 32 && msgBits <= 8 * |b|
    ensures HashCheck(A, b, Opened(m, 0), Opened(r, 0), lBits, y, 0, i)
            && HashCheck(A, b, Opened(m, 1), Opened(r, 1), lBits, y, 1, i)
            && HashCheck(A, b, Opened(m, 2), Opened(r, 2), lBits, y, 2, i)
      <==> HashSharesAt(A, m, r, lBits, msgBits, y, i)
           && ByteBit(b, i) == (RowTimes(A, XorVec3(r), lBits, i)
                                != ((BitOf(m.p0, i) != BitOf(m.p1, i)) != BitOf(m.p2, i)))
  {
    hide RowTimes, BitOf, ByteBit;
    RowTimesOpens(A, r, lBits, i);
  }

  /** Every bit of the prover's shares passes every check, when b hides the opened message under the
      opened vector. */
  lemma HashAccepted(A: seq<Word>, b: seq<Byte>, m: Triple<seq<Word>>, r: Triple<RVec>, lBits: nat, msgBits: nat,
                     y: Triple<seq<Word>>, e: nat, i: nat)
    requires ShareVectors(r, lBits) && Fits(A, lBits, msgBits) && i < msgBits && e < 3
    requires |m.p0| == |m.p1| == |m.p2| == |y.p0| == |y.p1| == |y.p2| == (msgBits + 31) / 32 && msgBits <= 8 * |b|
    requires HashSharesAt(A, m, r, lBits, msgBits, y, i)
    requires i / 32 + LWords(lBits) < |A|
    requires ByteBit(b, i)
        == (RowTimes(A, XorVec3(r), lBits, i) != ((BitOf(m.p0, i) != BitOf(m.p1, i)) != BitOf(m.p2, i)))
    ensures HashCheck(A, b, Opened(m, e), Opened(r, e), lBits, y, e, i)
  {
    hide HashCheck, HashSharesAt, RowTimes, BitOf, ByteBit;
    HashChecksExact(A, b, m, r, lBits, msgBits, y, i);
    if e == 0 {} else if e == 1 {} else {}
  }

  /** The message shares open to the message bytes. */
  ghost predicate MessageShares(m: Triple<seq<Word>>, msg: seq<Byte>, msgBits: nat)
    requires |m.p0| == |m.p1| == |m.p2| == (msgBits + 31) / 32 && msgBits <= 8 * |msg|
  {
    forall i :: 0 <= i < msgBits ==> ((BitOf(m.p0, i) != BitOf(m.p1, i)) != BitOf(m.p2, i)) == ByteBit(msg, i)
  }

  /** The whole hash: b from hash initialisation, output shares from the prover, and any challenge is
      accepted, for every number of message bits and every length of the vector. */
  method HashProveVerify(A: seq<Word>, b: array<Byte>, msg: seq<Byte>, m: Triple<seq<Word>>, r: Triple<RVec>,
                         lBits: nat, msgBits: nat, e: nat) returns (ok: bool)
    requires ShareVectors(r, lBits) && 0 < msgBits && |A| == AWords(lBits, msgBits) && e < 3
    requires |m.p0| == |m.p1| == |m.p2| == (msgBits + 31) / 32
    requires msgBits <= 8 * b.Length && msgBits <= 8 * |msg| && MessageShares(m, msg, msgBits)
    modifies b
    ensures ok
  {
    hide RowTimes, HashCheck, HashSharesAt, BitOf, ByteBit;
    AWordsFit(A, lBits, msgBits, 0);
    HashInit(A, b, msg, XorVec3(r), lBits, msgBits);
    var y := UniversalHashProve(A, m, r, lBits, msgBits);
    ok := UniversalHashVerify(A, b[..], Opened(m, e), Opened(r, e), lBits, msgBits, y, e);
    forall i | 0 <= i < msgBits
      ensures i / 32 + LWords(lBits) < |A| && HashCheck(A, b[..], Opened(m, e), Opened(r, e), lBits, y, e, i)
    {
      RowInside(A, lBits, msgBits, i);
      HashAccepted(A, b[..], m, r, lBits, msgBits, y, e, i);
    }
  }

  // ----- the one-bit inner product of the protocol

  /** The word holding one bit. */
  function BitWord(b: bool): (w: Word)
    ensures w[0] == b && forall i :: 1 <= i < 32 ==> !w[i]
  {
    seq(32, i requires 0 <= i < 32 => i == 0 && b)
  }

  /** One party's output share of mpc_inner_prod_prove. */
  function InnerShare(A: seq<Word>, m: Word, r: RVec, lBits: nat): Word
    requires IsRVec(r, lBits) && LWords(lBits) < |A|
  {
    Xor(BitWord(RowTimes(A, r, lBits, 0)), m)
  }

  lemma WindowZero(A: seq<Word>, idx: nat)
    requires idx + 1 < |A|
    ensures Window(A, idx, 0) == A[idx]
  {}

  /** The loop of the inner product reads the matrix words directly: the windows of row 0. */
  method InnerLoop(A: seq<Word>, r: RVec, lBits: nat) returns (bit: bool)
    requires IsRVec(r, lBits) && LWords(lBits) < |A|
    ensures bit == RowTimes(A, r, lBits, 0)
  {
    hide Window, And;
    ghost var n := Normalize(r, lBits);
    var acc: Word := ZERO;
    ParityZeros(32);
    var i := 0;
    while i < LWords(lBits)
      invariant 0 <= i <= LWords(lBits)
      invariant Parity(acc) == RowSum(A, n, 0, 32 * i)
    {
      var next := Xor(acc, And(A[i], MaskWord(r[i], i, lBits)));
      MaskedEntry(r, i, lBits);
      WindowZero(A, i);
      assert 0 / 32 + i == i && 0 % 32 == 0;
      RowSumStep(A, n, 0, i, acc, next);
      acc := next;
      i := i + 1;
    }
    bit := Parity(acc);
  }

  /** mpc_inner_prod_prove. */
  method InnerProdProve(A: seq<Word>, m: Triple<Word>, r: Triple<RVec>, lBits: nat) returns (y: Triple<Word>)
    requires ShareVectors(r, lBits) && LWords(lBits) < |A|
    ensures y == InnerShares(A, m, r, lBits)
  {
    hide RowTimes;
    var b0 := InnerLoop(A, r.p0, lBits);
    var b1 := InnerLoop(A, r.p1, lBits);
    var b2 := InnerLoop(A, r.p2, lBits);
    y := XorShares(Triple(BitWord(b0), BitWord(b1), BitWord(b2)), m);
  }

  function InnerShares(A: seq<Word>, m: Triple<Word>, r: Triple<RVec>, lBits: nat): Triple<Word>
    requires IsRVec(r.p0, lBits) && IsRVec(r.p1, lBits) && IsRVec(r.p2, lBits) && LWords(lBits) < |A|
  {
    Triple(InnerShare(A, m.p0, r.p0, lBits), InnerShare(A, m.p1, r.p1, lBits), InnerShare(A, m.p2, r.p2, lBits))
  }

  /** What mpc_inner_prod_verify decides for challenge e. */
  predicate InnerAccepts(A: seq<Word>, b: bool, m: Pair<Word>, r: Pair<RVec>, lBits: nat, y: Triple<Word>, e: nat)
    requires IsRVec(r.own, lBits) && IsRVec(r.next, lBits) && LWords(lBits) < |A|
  {
    var own, next := InnerShare(A, m.own, r.own, lBits), InnerShare(A, m.next, r.next, lBits);
    y.At(e) == own && y.At(e + 1) == next && Xor3(Triple(own, next, y.At(e + 2))) == BitWord(b)
  }

  /** mpc_inner_prod_verify. */
  method InnerProdVerify(A: seq<Word>, b: bool, m: Pair<Word>, r: Pair<RVec>, lBits: nat, y: Triple<Word>, e: nat)
    returns (ok: bool)
    requires IsRVec(r.own, lBits) && IsRVec(r.next, lBits) && LWords(lBits) < |A|
    ensures ok == InnerAccepts(A, b, m, r, lBits, y, e)
  {
    hide RowTimes, Xor3;
    var b0 := InnerLoop(A, r.own, lBits);
    var b1 := InnerLoop(A, r.next, lBits);
    var rec := XorPair(Pair(BitWord(b0), BitWord(b1)), m);
    if y.At(e) != rec.own || y.At(e + 1) != rec.next {
      return false;
    }
    ok := Xor3(Triple(rec.own, rec.next, y.At(e + 2))) == BitWord(b);
  }

  /** The output shares open to row 0 times r, XOR the opened message word. */
  lemma InnerSharesOpen(A: seq<Word>, m: Triple<Word>, r: Triple<RVec>, lBits: nat)
    requires ShareVectors(r, lBits) && LWords(lBits) < |A|
    ensures Xor3(InnerShares(A, m, r, lBits)) == Xor(BitWord(RowTimes(A, XorVec3(r), lBits, 0)), Xor3(m))
  {
    hide RowTimes;
    RowTimesOpens(A, r, lBits, 0);
    var y := InnerShares(A, m, r, lBits);
    var l, q := Xor3(y), Xor(BitWord(RowTimes(A, XorVec3(r), lBits, 0)), Xor3(m));
    forall i | 0 <= i < 32 ensures l[i] == q[i] {}
  }

  /** All three challenges accept exactly when the recorded shares are the computed ones and the
      message shares open to the single bit: row 0 times r, XOR the committed bit. */
  lemma InnerAcceptsExact(A: seq<Word>, b: bool, m: Triple<Word>, r: Triple<RVec>, lBits: nat, y: Triple<Word>)
    requires ShareVectors(r, lBits) && LWords(lBits) < |A|
    ensures InnerAccepts(A, b, Opened(m, 0), Opened(r, 0), lBits, y, 0)
            && InnerAccepts(A, b, Opened(m, 1), Opened(r, 1), lBits, y, 1)
            && InnerAccepts(A, b, Opened(m, 2), Opened(r, 2), lBits, y, 2)
      <==> y == InnerShares(A, m, r, lBits) && Xor3(m) == BitWord(RowTimes(A, XorVec3(r), lBits, 0) != b)
  {
    hide RowTimes, InnerShare, Xor3;
    InnerSharesOpen(A, m, r, lBits);
    XorMoves(RowTimes(A, XorVec3(r), lBits, 0), Xor3(m), b);
    var s := InnerShares(A, m, r, lBits);
    Xor3Rotates(s);
  }

  lemma XorMoves(p: bool, m: Word, b: bool)
    ensures Xor(BitWord(p), m) == BitWord(b) <==> m == BitWord(p != b)
  {
    var l, q := Xor(BitWord(p), m), BitWord(p != b);
    if l == BitWord(b) {
      forall i | 0 <= i < 32 ensures m[i] == q[i] { assert l[i] == BitWord(b)[i]; }
    }
    if m == q {
      forall i | 0 <= i < 32 ensures l[i] == BitWord(b)[i] {}
    }
  }

  lemma Xor3Rotates(t: Triple<Word>)
    ensures Xor3(Triple(t.p1, t.p2, t.p0)) == Xor3(t) && Xor3(Triple(t.p2, t.p0, t.p1)) == Xor3(t)
  {
    var a, b, c := Xor3(t), Xor3(Triple(t.p1, t.p2, t.p0)), Xor3(Triple(t.p2, t.p0, t.p1));
    forall i | 0 <= i < 32 ensures a[i] == b[i] && a[i] == c[i] {}
  }
}
