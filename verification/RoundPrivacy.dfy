/** The two views and the output shares of a round are consistent with every other opening of the
    same commitment. */
module RoundPrivacy {
  import opened Bits
  import opened Evaluations
  import opened Padding
  import opened Memory
  import opened Refinement
  import opened Privacy
  import opened Toeplitz
  import opened ByteViews
  import opened SharedHash
  import opened HaleviMicali
  import opened RoundTheorems
  import Sha256

  /** The shares that keep parties e and e+1 and open to u. */
  function Reshare(e: nat, x: Triple<RVec>, u: RVec): Triple<RVec>
    requires |x.p0| == |x.p1| == |x.p2| == |u|
  {
    Put(x, e + 2, XorWords(XorWords(x.At(e + 2), XorVec3(x)), u))
  }

  function ReshareWord(e: nat, m: Triple<Word>, w: Word): Triple<Word> {
    Put(m, e + 2, Xor(Xor(m.At(e + 2), Xor3(m)), w))
  }

  lemma ReshareWordOpens(e: nat, m: Triple<Word>, w: Word)
    requires e < 3
    ensures Xor3(ReshareWord(e, m, w)) == w && Agree(e, m, ReshareWord(e, m, w))
  {
    var q := ReshareWord(e, m, w);
    PutAt(m, e, Xor(Xor(m.At(e + 2), Xor3(m)), w));
    forall i | 0 <= i < 32 ensures Xor3(q)[i] == w[i] {
      if e == 0 {} else if e == 1 {} else {}
    }
  }

  lemma ReshareOpens(e: nat, x: Triple<RVec>, u: RVec)
    requires e < 3 && |x.p0| == |x.p1| == |x.p2| == |u|
    ensures var y := Reshare(e, x, u);
      |y.p0| == |y.p1| == |y.p2| == |u| && XorVec3(y) == u && Agree(e, x, y)
  {
    var y := Reshare(e, x, u);
    PutAt(x, e, XorWords(XorWords(x.At(e + 2), XorVec3(x)), u));
    assert |y.p0| == |y.p1| == |y.p2| == |u| by { if e == 0 {} else if e == 1 {} else {} }
    var l := XorVec3(y);
    forall i | 0 <= i < |u| ensures l[i] == u[i] {
      ReshareEntry(e, x, u, i);
    }
  }

  lemma ReshareEntry(e: nat, x: Triple<RVec>, u: RVec, i: nat)
    requires e < 3 && |x.p0| == |x.p1| == |x.p2| == |u| && i < |u|
    ensures var y := Reshare(e, x, u);
      |y.p0| == |y.p1| == |y.p2| == |u| && XorVec3(y)[i] == u[i]
  {
    var y := Reshare(e, x, u);
    var t := Triple(x.p0[i], x.p1[i], x.p2[i]);
    ReshareWordOpens(e, t, u[i]);
    var q := ReshareWord(e, t, u[i]);
    assert XorVec3(x)[i] == Xor3(t);
    if e == 0 {
      assert y.p2[i] == q.p2;
    } else if e == 1 {
      assert y.p0[i] == q.p0;
    } else {
      assert y.p1[i] == q.p1;
    }
    assert Triple(y.p0[i], y.p1[i], y.p2[i]) == q;
    assert XorVec3(y)[i] == Xor3(q);
  }

  lemma InnerSharesAgree(e: nat, A: seq<Word>, m: Triple<Word>, x: Triple<RVec>, n: Triple<Word>, y: Triple<RVec>,
                         lBits: nat)
    requires e < 3 && ShareVectors(x, lBits) && ShareVectors(y, lBits) && LWords(lBits) < |A|
    requires Agree(e, m, n) && Agree(e, x, y)
    ensures Agree(e, InnerShares(A, m, x, lBits), InnerShares(A, n, y, lBits))
  {
    hide InnerShare;
    if e == 0 {} else if e == 1 {} else {}
  }

  lemma BytesAgree(e: nat, x: Triple<RVec>, y: Triple<RVec>, lBits: nat)
    requires e < 3 && ShareVectors(x, lBits) && ShareVectors(y, lBits) && Agree(e, x, y)
    ensures Agree(e, InputBytes(x, lBits), InputBytes(y, lBits))
    ensures SameLength(InputBytes(x, lBits)) && SameLength(InputBytes(y, lBits))
    ensures |InputBytes(x, lBits).p0| == |InputBytes(y, lBits).p0|
  {
    hide RBytes;
    if e == 0 {} else if e == 1 {} else {}
  }

  lemma ViewsAgree(e: nat, x: Triple<RVec>, m: Triple<Word>, y: Triple<RVec>, n: Triple<Word>, ys: seq<Triple<Word>>,
                   zs: seq<Triple<Word>>)
    requires e < 3 && Agree(e, x, y) && Agree(e, m, n) && SameViews(e, ys, zs)
    ensures Agree(e, ViewsOf(x, m, ys), ViewsOf(y, n, zs))
  {
    hide StoreLE;
    forall i | 0 <= i < |ys| ensures ys[i].At(e) == zs[i].At(e) && ys[i].At(e + 1) == zs[i].At(e + 1) {
      assert Agree(e, ys[i], zs[i]);
    }
    assert Column(ys, e) == Column(zs, e);
    assert Column(ys, e + 1) == Column(zs, e + 1);
    if e == 0 {} else if e == 1 {} else { assert Column(ys, 3) == Column(ys, 0) && Column(zs, 3) == Column(zs, 0); }
  }

  // ----- shares that share_secrets can draw

  /** Shares of the form share_secrets gives: no bits past lBits. */
  ghost predicate DrawnVectors(x: Triple<RVec>, lBits: nat) {
    Canonical(x.p0, lBits) && Canonical(x.p1, lBits) && Canonical(x.p2, lBits)
  }

  /** Shares of the form share_secrets gives: one bit each. */
  ghost predicate DrawnWords(m: Triple<Word>) {
    m.p0 == BitWord(m.p0[0]) && m.p1 == BitWord(m.p1[0]) && m.p2 == BitWord(m.p2[0])
  }

  lemma SharesAreDrawn(lBits: nat, r: RVec, rnd0: RVec, rnd1: RVec, bit: bool, w0: Word, w1: Word)
    requires IsRVec(r, lBits) && IsRVec(rnd0, lBits) && IsRVec(rnd1, lBits)
    ensures DrawnVectors(VectorShares(lBits, r, rnd0, rnd1), lBits)
    ensures DrawnWords(WordShares(BitWord(bit), w0, w1))
  {
    NormalizeCanonical(rnd0, lBits);
    NormalizeCanonical(rnd1, lBits);
    NormalizeCanonical(XorWords(XorWords(r, Normalize(rnd0, lBits)), Normalize(rnd1, lBits)), lBits);
    var m := WordShares(BitWord(bit), w0, w1);
    assert m.p2 == BitWord(m.p2[0]) by {
      forall i | 0 <= i < 32 ensures m.p2[i] == BitWord(m.p2[0])[i] {}
    }
  }

  /** All such shares of a vector come from some random vectors. */
  lemma VectorsReached(lBits: nat, y: Triple<RVec>)
    requires DrawnVectors(y, lBits)
    ensures VectorShares(lBits, XorVec3(y), y.p0, y.p1) == y
  {
    CanonicalFixed(y.p0, lBits);
    CanonicalFixed(y.p1, lBits);
    CanonicalFixed(y.p2, lBits);
    var v := XorWords(XorWords(XorVec3(y), y.p0), y.p1);
    forall i | 0 <= i < |v| ensures v[i] == y.p2[i] {
      forall j | 0 <= j < 32 ensures v[i][j] == y.p2[i][j] {}
    }
    assert v == y.p2;
  }

  lemma WordsReached(n: Triple<Word>)
    requires DrawnWords(n)
    ensures WordShares(Xor3(n), n.p0, n.p1) == n
  {
    var v := Xor(Xor(Xor3(n), n.p0), n.p1);
    forall i | 0 <= i < 32 ensures v[i] == n.p2[i] {}
    assert v == n.p2;
  }

  lemma ReshareDrawn(e: nat, lBits: nat, x: Triple<RVec>, u: RVec)
    requires e < 3 && DrawnVectors(x, lBits) && Canonical(u, lBits)
    ensures DrawnVectors(Reshare(e, x, u), lBits)
  {
    var v := XorWords(XorWords(x.At(e + 2), XorVec3(x)), u);
    forall j | lBits <= j < 32 * |v| ensures !BitOf(v, j) {
      assert !BitOf(x.p0, j) && !BitOf(x.p1, j) && !BitOf(x.p2, j) && !BitOf(u, j);
    }
    if e == 0 {} else if e == 1 {} else {}
  }

  lemma ReshareWordDrawn(e: nat, m: Triple<Word>, bit: bool)
    requires e < 3 && DrawnWords(m)
    ensures DrawnWords(ReshareWord(e, m, BitWord(bit)))
  {
    var v := Xor(Xor(m.At(e + 2), Xor3(m)), BitWord(bit));
    assert v == BitWord(v[0]) by {
      forall i | 1 <= i < 32 ensures !v[i] {
        assert !m.p0[i] && !m.p1[i] && !m.p2[i] by { hide Xor, Xor3; }
      }
    }
    hide Xor, Xor3, BitWord;
    if e == 0 {} else if e == 1 {} else {}
  }

  /** Two-view privacy of a round. Take any run of the prover on shares x, m and any other opening
      (u, w) of the same digest and of the same masked bit. There are shares of (u, w) and a tape of
      the unopened party under which the opened views and everything else the round commitment
      publishes, besides the unopened party's view hash, are exactly the same. If x and m can be drawn
      and the other opening is canonical, those shares can be drawn too. */
  lemma RoundHides(e: nat, lBits: nat, A: seq<Word>, x: Triple<RVec>, m: Triple<Word>, tapes: Tapes, u: RVec, w: Word)
    returns (y: Triple<RVec>, n: Triple<Word>, tape: seq<Word>)
    requires e < 3 && ShareVectors(x, lBits) && IsRVec(u, lBits) && LWords(lBits) < |A|
    requires Sha256.Hash(Sha256.BitString(RBytes(u, lBits))) == Sha256.Hash(Sha256.BitString(RBytes(XorVec3(x), lBits)))
    requires Xor(BitWord(RowTimes(A, u, lBits, 0)), w) == Xor(BitWord(RowTimes(A, XorVec3(x), lBits, 0)), Xor3(m))
    ensures ShareVectors(y, lBits) && XorVec3(y) == u && Xor3(n) == w && |tape| == ViewWords(lBits)
    ensures DrawnVectors(x, lBits) && Canonical(u, lBits) ==> VectorShares(lBits, u, y.p0, y.p1) == y
    ensures DrawnWords(m) && w == BitWord(w[0]) ==> WordShares(w, n.p0, n.p1) == n
    ensures var other := Put(tapes, e + 2, tape);
      && Agree(e, RunViews(x, m, tapes, [], lBits), RunViews(y, n, other, [], lBits))
      && RunOutputs(x, tapes, [], lBits) == RunOutputs(y, other, [], lBits)
      && InnerShares(A, m, x, lBits) == InnerShares(A, n, y, lBits)
  {
    hide ProverRun, RBytes, Sha256.Hash, Sha256.BitString, XorVec3, Reshare, ReshareWord, Put, SameViews, XorBytes3,
         InnerShares, RowTimes, Xor3, VectorShares, WordShares, Canonical, DrawnVectors, DrawnWords, OutputShares,
         StoreLE, NumBlocks, Agree, Xor, Column;
    y, n := Reshare(e, x, u), ReshareWord(e, m, w);
    ReshareOpens(e, x, u);
    ReshareWordOpens(e, m, w);
    var b, c := InputBytes(x, lBits), InputBytes(y, lBits);
    BytesAgree(e, x, y, lBits);
    BytesOpen(x, lBits);
    BytesOpen(y, lBits);
    tape := PublishedOutputsHide(e, b, c, tapes);
    var other := Put(tapes, e + 2, tape);
    ViewsAgree(e, x, m, y, n, ProverRun(b, tapes, []).0.ys, ProverRun(c, other, []).0.ys);
    InnerSharesAgree(e, A, m, x, n, y, lBits);
    InnerSharesOpen(A, m, x, lBits);
    InnerSharesOpen(A, n, y, lBits);
    ThirdShareForced(e, InnerShares(A, m, x, lBits), InnerShares(A, n, y, lBits));
    if DrawnVectors(x, lBits) && Canonical(u, lBits) {
      ReshareDrawn(e, lBits, x, u);
      VectorsReached(lBits, y);
    }
    if DrawnWords(m) && w == BitWord(w[0]) {
      ReshareWordDrawn(e, m, w[0]);
      WordsReached(n);
    }
  }

  /** Every word tape is the tape of some random bytes. */
  lemma EveryTape(w: seq<Word>)
    ensures TapeOf(ToBytes(w, 4 * |w|)) == w
  {
    hide ToBytes, LoadLE;
    var b := ToBytes(w, 4 * |w|);
    forall i | 0 <= i < |w| ensures TapeOf(b)[i] == w[i] {
      TapeWordBits(w, i);
    }
  }

  lemma TapeWordBits(w: seq<Word>, i: nat)
    requires i < |w|
    ensures LoadLE(ToBytes(w, 4 * |w|)[4 * i..4 * i + 4]) == w[i]
  {
    var b := ToBytes(w, 4 * |w|);
    var q := b[4 * i..4 * i + 4];
    var l := LoadLE(q);
    forall j | 0 <= j < 32 ensures l[j] == w[i][j] {
      assert l[j] == q[j / 8][j % 8];
      var k := 32 * i + j;
      assert k / 8 == 4 * i + j / 8 && k % 8 == j % 8 && k / 32 == i && k % 32 == j;
      assert ByteBit(b, k) == BitOf(w, k);
    }
  }
}
