/** What one challenge alone decides. A verifier only ever runs one. */
module SingleChallenge {
  import opened Bits
  import opened Shares
  import opened Circuit
  import opened Evaluations
  import opened Padding
  import opened Memory
  import opened Budget
  import opened Soundness
  import opened SpecialSoundness
  import opened ByteViews
  import opened SharedHash
  import opened HaleviMicali
  import opened RoundTheorems
  import Sha256

  // ----- the circuit

  /** The output shares of both parties are determined. */
  lemma OneOutput(x: Pair<seq<Byte>>, tapes: Pair<seq<Word>>, ys: Pair<seq<Word>>,
                  outs: Pair<seq<Word>>, other: Pair<seq<Word>>)
    requires |x.own| == |x.next|
    requires Accepts(x, tapes, ys, outs) && Accepts(x, tapes, ys, other)
    ensures outs == other
  {
    hide VerifierRun, OwnWords, NextWords;
  }

  /** The first party's recorded words so far are the same in two views. */
  ghost predicate SameOwn(ys: Pair<seq<Word>>, zs: Pair<seq<Word>>, n: nat) {
    forall i :: 0 <= i < n ==> TapeWord(ys.own, i) == TapeWord(zs.own, i)
  }

  ghost predicate SameLow(ys: Pair<seq<Word>>, zs: Pair<seq<Word>>) {
    forall i: nat :: TapeWord(ys.own, i)[0] == TapeWord(zs.own, i)[0]
  }

  ghost function Owning(tapes: Pair<seq<Word>>, ys: Pair<seq<Word>>, zs: Pair<seq<Word>>)
    : Sim<Checked, Pair<Word>, Checked, Pair<Word>>
  {
    Sim(VerifyGates(tapes, ys), VerifyGates(tapes, zs), (s: Checked, t: Checked) => s.ok && t.ok,
        (s: Checked, t: Checked) => s.count == t.count && SameOwn(ys, zs, s.count),
        (x: Pair<Word>, y: Pair<Word>) => x == y)
  }

  lemma {:induction false} OwnCarryForced(x: Pair<Word>, y: Pair<Word>, r: Pair<Word>, c: Pair<Word>, d: Pair<Word>,
                                          i: nat)
    requires AddCheck(x, y, r, c) && AddCheck(x, y, r, d) && c.next == d.next && c.own[0] == d.own[0] && i < 32
    ensures c.own[i] == d.own[i]
  {
    hide NextCarry;
    if i > 0 {
      OwnCarryForced(x, y, r, c, d, i - 1);
      assert CarryStep(x, y, r, c, i - 1) && CarryStep(x, y, r, d, i - 1);
    }
  }

  /** Bits 1 to 31 of a party's carry word follow from the next party's word and bit 0. */
  lemma OwnWordForced(x: Pair<Word>, y: Pair<Word>, r: Pair<Word>, c: Pair<Word>, d: Pair<Word>)
    requires AddCheck(x, y, r, c) && AddCheck(x, y, r, d) && c.next == d.next && c.own[0] == d.own[0]
    ensures c == d
  {
    forall i | 0 <= i < 32 ensures c.own[i] == d.own[i] { OwnCarryForced(x, y, r, c, d, i); }
    assert c.own == d.own;
  }

  lemma OwnAdd(tapes: Pair<seq<Word>>, ys: Pair<seq<Word>>, zs: Pair<seq<Word>>, s: Checked, t: Checked,
               x: Pair<Word>, y: Pair<Word>)
    requires ys.next == zs.next && SameLow(ys, zs) && s.count == t.count && SameOwn(ys, zs, s.count)
    requires VerifyAdd(tapes, ys, s, x, y).0.ok && VerifyAdd(tapes, zs, t, x, y).0.ok
    ensures SameOwn(ys, zs, s.count + 1) && VerifyAdd(tapes, ys, s, x, y).1 == VerifyAdd(tapes, zs, t, x, y).1
  {
    hide AddCheck, XorPair, TapeWord;
    OwnWordForced(x, y, ViewPair(tapes, s.count), ViewPair(ys, s.count), ViewPair(zs, s.count));
  }

  lemma OwnAnd(tapes: Pair<seq<Word>>, ys: Pair<seq<Word>>, zs: Pair<seq<Word>>, s: Checked, t: Checked,
               x: Pair<Word>, y: Pair<Word>)
    requires ys.next == zs.next && s.count == t.count && SameOwn(ys, zs, s.count)
    requires VerifyAnd(tapes, ys, s, x, y).0.ok && VerifyAnd(tapes, zs, t, x, y).0.ok
    ensures SameOwn(ys, zs, s.count + 1) && VerifyAnd(tapes, ys, s, x, y).1 == VerifyAnd(tapes, zs, t, x, y).1
  {
    hide AndShare, TapeWord;
  }

  lemma OwningSimulates(tapes: Pair<seq<Word>>, ys: Pair<seq<Word>>, zs: Pair<seq<Word>>)
    requires ys.next == zs.next && SameLow(ys, zs)
    ensures Simulates(Owning(tapes, ys, zs))
  {
    var m := Owning(tapes, ys, zs);
    hide AddCheck, AndShare, XorPair, Rotr, Shr, TapeWord, SameOwn, SameLow;
    forall s1, s2, x1, x2, y1, y2
      ensures Step(m, s1, s2, x1, x2, y1, y2, m.g1.add(s1, x1, y1), m.g2.add(s2, x2, y2))
    {
      if m.good(m.g1.add(s1, x1, y1).0, m.g2.add(s2, x2, y2).0) && m.states(s1, s2) && x1 == x2 && y1 == y2 {
        OwnAdd(tapes, ys, zs, s1, s2, x1, y1);
      }
    }
    forall s1, s2, x1, x2, y1, y2
      ensures Step(m, s1, s2, x1, x2, y1, y2, m.g1.and(s1, x1, y1), m.g2.and(s2, x2, y2))
    {
      if m.good(m.g1.and(s1, x1, y1).0, m.g2.and(s2, x2, y2).0) && m.states(s1, s2) && x1 == x2 && y1 == y2 {
        OwnAnd(tapes, ys, zs, s1, s2, x1, y1);
      }
    }
  }

  lemma OwnBlocks(tapes: Pair<seq<Word>>, ys: Pair<seq<Word>>, zs: Pair<seq<Word>>,
                  h: Sha256.Vars<Pair<Word>>, k: seq<Word>, c: seq<seq<Pair<Word>>>, n: nat)
    requires |k| == 64 && n <= |c| && forall i :: 0 <= i < |c| ==> |c[i]| == 16
    requires ys.next == zs.next && SameLow(ys, zs)
    requires Blocks(VerifyGates(tapes, ys), UNCHECKED, h, k, c, n).0.ok
    requires Blocks(VerifyGates(tapes, zs), UNCHECKED, h, k, c, n).0.ok
    ensures SameOwn(ys, zs, Blocks(VerifyGates(tapes, ys), UNCHECKED, h, k, c, n).0.count)
    ensures Blocks(VerifyGates(tapes, ys), UNCHECKED, h, k, c, n).1
         == Blocks(VerifyGates(tapes, zs), UNCHECKED, h, k, c, n).1
  {
    hide Blocks, Simulates, TapeWord;
    OwningSimulates(tapes, ys, zs);
    assert UNCHECKED.count == 0 && SameOwn(ys, zs, UNCHECKED.count);
    SimulateEqual(Owning(tapes, ys, zs), UNCHECKED, UNCHECKED, h, k, c, n);
  }

  lemma SameVerifierLift(tapes: Pair<seq<Word>>, ys: Pair<seq<Word>>, zs: Pair<seq<Word>>)
    ensures LiftVars(VerifyGates(tapes, ys), Sha256.H0) == LiftVars(VerifyGates(tapes, zs), Sha256.H0)
  {}

  /** One accepted challenge determines every word of the first party's view, up to the bits 0 no
      verifier checks, from both inputs, both tapes and the second party's view; and it determines
      both output shares. */
  lemma OneView(x: Pair<seq<Byte>>, tapes: Pair<seq<Word>>, ys: Pair<seq<Word>>, zs: Pair<seq<Word>>,
                outs: Pair<seq<Word>>, other: Pair<seq<Word>>)
    requires |x.own| == |x.next| && ys.next == zs.next && SameLow(ys, zs)
    requires Accepts(x, tapes, ys, outs) && Accepts(x, tapes, zs, other)
    ensures SameOwn(ys, zs, GATES_PER_BLOCK * NumBlocks(|x.own|)) && outs == other
  {
    hide Blocks, PairChunks, NumBlocks, LiftVars, VerifyGates, SameOwn, SameLow, OwnWords, NextWords;
    SameVerifierLift(tapes, ys, zs);
    VerifierBudget(x, tapes, ys);
    OwnBlocks(tapes, ys, zs, LiftVars(VerifyGates(tapes, ys), Sha256.H0), Sha256.K, PairChunks(x), NumBlocks(|x.own|));
  }

  // ----- the shared hash

  /** One bit, one challenge: all three output shares of the bit are determined. */
  lemma OneHashBit(A: seq<Word>, b: seq<Byte>, m: Pair<seq<Word>>, r: Pair<RVec>, lBits: nat,
                   y: Triple<seq<Word>>, z: Triple<seq<Word>>, e: nat, i: nat)
    requires IsRVec(r.own, lBits) && IsRVec(r.next, lBits) && i / 32 + LWords(lBits) < |A|
    requires i < 32 * |m.own| && |m.own| == |m.next| && i < 8 * |b| && e < 3
    requires |y.p0| == |y.p1| == |y.p2| == |z.p0| == |z.p1| == |z.p2| == |m.own|
    requires HashCheck(A, b, m, r, lBits, y, e, i) && HashCheck(A, b, m, r, lBits, z, e, i)
    ensures BitOf(y.p0, i) == BitOf(z.p0, i) && BitOf(y.p1, i) == BitOf(z.p1, i) && BitOf(y.p2, i) == BitOf(z.p2, i)
  {
    hide RowTimes, ByteBit, BitOf;
    if e == 0 {} else if e == 1 {} else {}
  }

  /** The inner product at one challenge admits exactly one triple of output words: the two computed
      ones, and the third that opens with them to the masked bit. */
  lemma OneInnerProduct(A: seq<Word>, b: bool, m: Pair<Word>, r: Pair<RVec>, lBits: nat, y: Triple<Word>,
                        z: Triple<Word>, e: nat)
    requires IsRVec(r.own, lBits) && IsRVec(r.next, lBits) && LWords(lBits) < |A| && e < 3
    ensures InnerAccepts(A, b, m, r, lBits, y, e) && InnerAccepts(A, b, m, r, lBits, z, e) ==> y == z
    ensures InnerAccepts(A, b, m, r, lBits, y, e) <==>
      && y.At(e) == Xor(BitWord(RowTimes(A, r.own, lBits, 0)), m.own)
      && y.At(e + 1) == Xor(BitWord(RowTimes(A, r.next, lBits, 0)), m.next)
      && Xor3(y) == BitWord(b)
  {
    InnerOpens(A, b, m, r, lBits, y, e);
    InnerOpens(A, b, m, r, lBits, z, e);
    if InnerAccepts(A, b, m, r, lBits, y, e) && InnerAccepts(A, b, m, r, lBits, z, e) {
      hide InnerAccepts, RowTimes, BitWord;
      ThirdWord(y, z, e);
    }
  }

  lemma InnerOpens(A: seq<Word>, b: bool, m: Pair<Word>, r: Pair<RVec>, lBits: nat, y: Triple<Word>, e: nat)
    requires IsRVec(r.own, lBits) && IsRVec(r.next, lBits) && LWords(lBits) < |A| && e < 3
    ensures InnerAccepts(A, b, m, r, lBits, y, e) <==>
      && y.At(e) == Xor(BitWord(RowTimes(A, r.own, lBits, 0)), m.own)
      && y.At(e + 1) == Xor(BitWord(RowTimes(A, r.next, lBits, 0)), m.next)
      && Xor3(y) == BitWord(b)
  {
    hide RowTimes, BitWord, Xor, Xor3;
    TurnedOpens(y, e);
  }

  lemma TurnedOpens(y: Triple<Word>, e: nat)
    requires e < 3
    ensures Xor3(Triple(y.At(e), y.At(e + 1), y.At(e + 2))) == Xor3(y)
  {
    var t := Xor3(Triple(y.At(e), y.At(e + 1), y.At(e + 2)));
    forall i | 0 <= i < 32 ensures t[i] == Xor3(y)[i] {
      if e == 0 {} else if e == 1 {} else {}
    }
  }

  lemma ThirdWord(y: Triple<Word>, z: Triple<Word>, e: nat)
    requires e < 3 && y.At(e) == z.At(e) && y.At(e + 1) == z.At(e + 1) && Xor3(y) == Xor3(z)
    ensures y == z
  {
    forall i | 0 <= i < 32 ensures y.p0[i] == z.p0[i] && y.p1[i] == z.p1[i] && y.p2[i] == z.p2[i] {
      assert Xor3(y)[i] == Xor3(z)[i];
      if e == 0 {} else if e == 1 {} else {}
    }
    assert y.p0 == z.p0;
    assert y.p1 == z.p1;
    assert y.p2 == z.p2;
  }

  // ----- a whole round

  /** The same word triple opens to one sum, whichever two words are fixed. */
  lemma OneReconstruction(a: Commit, c: Commit, d: Digest, e: nat)
    requires WellFormedCommit(a) && WellFormedCommit(c) && e < 3
    requires Opened(ReconstructShares(a, d), e) == Opened(ReconstructShares(c, d), e)
    ensures a.yp0 == c.yp0 && a.yp1 == c.yp1
  {
    var o, q := ReconstructShares(a, d), ReconstructShares(c, d);
    ReconstructedOpen(a, d);
    ReconstructedOpen(c, d);
    forall i | 0 <= i < 8 ensures o.p0[i] == q.p0[i] && o.p1[i] == q.p1[i] {
      hide Xor3, ReconstructShares, DigestWords;
      var s, t := Triple(o.p0[i], o.p1[i], o.p2[i]), Triple(q.p0[i], q.p1[i], q.p2[i]);
      assert Xor3(s) == OpenWords(o)[i] == OpenWords(q)[i] == Xor3(t);
      if e == 0 {} else if e == 1 { ThirdWord(s, t, e); } else { ThirdWord(s, t, e); }
    }
  }

  /** One accepted challenge: the hashes of both opened views are in the commitment. */
  lemma OneChallengeHashes(p: Primitives, lBits: nat, H: HashKey, a: Commit, z: Open, d: Digest, e: nat)
    requires WellFormedView(z.views.own, lBits) && WellFormedView(z.views.next, lBits) && WellFormedCommit(a)
    requires LWords(lBits) < |H.A| && |H.b| > 0 && e < 3
    requires RoundAccepts(p, lBits, H, a, z, d, e)
    ensures a.h.At(e) == p.viewHash(z.keys.own, z.views.own, z.rs.own)
    ensures a.h.At(e + 1) == p.viewHash(z.keys.next, z.views.next, z.rs.next)
  {
    hide CircuitAccepts, InnerAccepts, LoadLE, WellFormedView;
  }

  /** Exactly which commitments one challenge accepts for a given opening and digest: all of the
      commitment is determined but the hash of the view that stays closed. */
  lemma OneChallengeCommit(p: Primitives, lBits: nat, H: HashKey, a: Commit, c: Commit, z: Open, d: Digest, e: nat)
    requires WellFormedView(z.views.own, lBits) && WellFormedView(z.views.next, lBits)
    requires WellFormedCommit(a) && WellFormedCommit(c) && LWords(lBits) < |H.A| && |H.b| > 0 && e < 3
    requires RoundAccepts(p, lBits, H, a, z, d, e)
    ensures RoundAccepts(p, lBits, H, c, z, d, e) <==>
      && c.yp0 == a.yp0 && c.yp1 == a.yp1 && c.y2p == a.y2p
      && c.h.At(e) == a.h.At(e) && c.h.At(e + 1) == a.h.At(e + 1)
  {
    if RoundAccepts(p, lBits, H, c, z, d, e) {
      OneCircuitCommit(p, lBits, a, c, z, d, e);
      OneInnerCommit(p, lBits, H, a, c, z, d, e);
      hide RoundAccepts, WellFormedView;
      OneChallengeHashes(p, lBits, H, a, z, d, e);
      OneChallengeHashes(p, lBits, H, c, z, d, e);
    } else {
      hide Accepts, InnerAccepts, Tape, TapeOf, RBytes, LoadLE, WellFormedView;
    }
  }

  lemma OneCircuitCommit(p: Primitives, lBits: nat, a: Commit, c: Commit, z: Open, d: Digest, e: nat)
    requires WellFormedView(z.views.own, lBits) && WellFormedView(z.views.next, lBits)
    requires WellFormedCommit(a) && WellFormedCommit(c) && e < 3
    requires CircuitAccepts(p, lBits, a, z, d, e) && CircuitAccepts(p, lBits, c, z, d, e)
    ensures c.yp0 == a.yp0 && c.yp1 == a.yp1
  {
    hide Accepts, Tape, TapeOf, RBytes, ReconstructShares, NumBlocks;
    OneOutput(Pair(RBytes(z.views.own.x, lBits), RBytes(z.views.next.x, lBits)),
              Pair(TapeOf(Tape(p, z.keys.own, lBits)), TapeOf(Tape(p, z.keys.next, lBits))),
              Pair(z.views.own.y, z.views.next.y),
              Opened(ReconstructShares(a, d), e), Opened(ReconstructShares(c, d), e));
    OneReconstruction(a, c, d, e);
  }

  lemma OneInnerCommit(p: Primitives, lBits: nat, H: HashKey, a: Commit, c: Commit, z: Open, d: Digest, e: nat)
    requires WellFormedView(z.views.own, lBits) && WellFormedView(z.views.next, lBits)
    requires WellFormedCommit(a) && WellFormedCommit(c) && LWords(lBits) < |H.A| && |H.b| > 0 && e < 3
    requires RoundAccepts(p, lBits, H, a, z, d, e) && RoundAccepts(p, lBits, H, c, z, d, e)
    ensures c.y2p == a.y2p
  {
    hide CircuitAccepts, ViewsHashed, InnerAccepts, RowTimes, LoadLE, Xor, Xor3, NumBlocks;
    OneInnerProduct(H.A, H.b[0][0], Pair(LoadLE(z.views.own.msg), LoadLE(z.views.next.msg)),
                    Pair(z.views.own.x, z.views.next.x), lBits, a.y2p, c.y2p, e);
  }

  /** Challenges 1 and 2 determine the digest; challenge 0 opens the two parties whose output shares
      the commitment holds, and says nothing about it. */
  lemma OneChallengeDigest(p: Primitives, lBits: nat, H: HashKey, a: Commit, z: Open, d: Digest, f: Digest, e: nat)
    requires WellFormedView(z.views.own, lBits) && WellFormedView(z.views.next, lBits) && WellFormedCommit(a)
    requires LWords(lBits) < |H.A| && |H.b| > 0 && e < 3
    requires RoundAccepts(p, lBits, H, a, z, d, e)
    ensures RoundAccepts(p, lBits, H, a, z, f, e) <==> e == 0 || f == d
  {
    hide Accepts, InnerAccepts, Tape, TapeOf, RBytes, LoadLE, ViewWords, DigestWords, NumBlocks;
    if e != 0 && RoundAccepts(p, lBits, H, a, z, f, e) {
      OneOutput(Pair(RBytes(z.views.own.x, lBits), RBytes(z.views.next.x, lBits)),
                Pair(TapeOf(Tape(p, z.keys.own, lBits)), TapeOf(Tape(p, z.keys.next, lBits))),
                Pair(z.views.own.y, z.views.next.y),
                Opened(ReconstructShares(a, d), e), Opened(ReconstructShares(a, f), e));
      SameThirdShare(a, d, f);
    }
  }

  lemma SameThirdShare(a: Commit, d: Digest, f: Digest)
    requires WellFormedCommit(a) && ReconstructShares(a, d).p2 == ReconstructShares(a, f).p2
    ensures d == f
  {
    var o, q := ReconstructShares(a, d), ReconstructShares(a, f);
    hide ReconstructShares, Sha256.LoadBE, Sha256.StoreBE, OpenWords;
    ReconstructedOpen(a, d);
    ReconstructedOpen(a, f);
    assert o == q;
    forall i | 0 <= i < 32 ensures d[i] == f[i] {
      var b, c := d[4 * (i / 4)..4 * (i / 4) + 4], f[4 * (i / 4)..4 * (i / 4) + 4];
      assert DigestWords(d)[i / 4] == DigestWords(f)[i / 4];
      StoreLoadBE(b);
      StoreLoadBE(c);
      assert b[i % 4] == d[i] && c[i % 4] == f[i];
    }
  }
}
