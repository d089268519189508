/** What acceptance by the verifier means: completeness, special soundness and uniqueness of the
    transcript. */
module Soundness {
  import opened Bits
  import opened Shares
  import opened Circuit
  import opened Evaluations
  import opened Padding
  import opened Refinement
  import opened Budget
  import Sha256

  // ----- each verifier sees its two parties of the joint replay

  ghost function Projection(tapes: Tapes, ys: Tapes, e: nat): Sim<Checked, Pair<Word>, Followed, Triple<Word>> {
    Sim(VerifyGates(Opened(tapes, e), Opened(ys, e)), FollowGates(tapes, ys),
        (v, f) => true, (v: Checked, f: Followed) => v.count == f.count && v.ok == f.ok.At(e),
        (p: Pair<Word>, t: Triple<Word>) => p == Opened(t, e))
  }

  lemma ProjectedAdd(tapes: Tapes, ys: Tapes, e: nat, f: Followed, x: Triple<Word>, y: Triple<Word>)
    requires e < 3
    ensures var r := VerifyAdd(Opened(tapes, e), Opened(ys, e), Checked(f.count, f.ok.At(e)), Opened(x, e),
                               Opened(y, e));
      var q := FollowAdd(tapes, ys, f, x, y);
      r.0.count == q.0.count && r.0.ok == q.0.ok.At(e) && r.1 == Opened(q.1, e)
  {
    hide AddCheck, Xor;
    if e == 0 {} else if e == 1 {} else {}
  }

  lemma ProjectedAnd(tapes: Tapes, ys: Tapes, e: nat, f: Followed, x: Triple<Word>, y: Triple<Word>)
    requires e < 3
    ensures var r := VerifyAnd(Opened(tapes, e), Opened(ys, e), Checked(f.count, f.ok.At(e)), Opened(x, e),
                               Opened(y, e));
      var q := FollowAnd(tapes, ys, f, x, y);
      r.0.count == q.0.count && r.0.ok == q.0.ok.At(e) && r.1 == Opened(q.1, e)
  {
    hide AndShare;
    if e == 0 {} else if e == 1 {} else {}
  }

  lemma ProjectedLinear(e: nat, x: Triple<Word>, y: Triple<Word>, n: nat)
    requires e < 3
    ensures Opened(XorShares(x, y), e) == XorPair(Opened(x, e), Opened(y, e))
    ensures Opened(RotrShares(x, n), e) == Pair(Rotr(x.At(e), n), Rotr(x.At(e + 1), n))
    ensures Opened(ShrShares(x, n), e) == Pair(Shr(x.At(e), n), Shr(x.At(e + 1), n))
  {
    hide Xor, Rotr, Shr;
    if e == 0 {} else if e == 1 {} else {}
  }

  lemma ProjectionSimulates(tapes: Tapes, ys: Tapes, e: nat)
    requires e < 3
    ensures Simulates(Projection(tapes, ys, e))
  {
    hide FollowAdd, VerifyAdd, FollowAnd, VerifyAnd, XorShares, XorPair, RotrShares, ShrShares, Rotr, Shr;
    var m := Projection(tapes, ys, e);
    forall s1, s2, x1, x2, y1, y2
      ensures Step(m, s1, s2, x1, x2, y1, y2, m.g1.add(s1, x1, y1), m.g2.add(s2, x2, y2))
    {
      ProjectedAdd(tapes, ys, e, s2, x2, y2);
      assert m.states(s1, s2) ==> s1 == Checked(s2.count, s2.ok.At(e));
    }
    forall s1, s2, x1, x2, y1, y2
      ensures Step(m, s1, s2, x1, x2, y1, y2, m.g1.and(s1, x1, y1), m.g2.and(s2, x2, y2))
    {
      ProjectedAnd(tapes, ys, e, s2, x2, y2);
      assert m.states(s1, s2) ==> s1 == Checked(s2.count, s2.ok.At(e));
    }
    forall x1, x2, y1, y2 | m.values(x1, x2) && m.values(y1, y2)
      ensures m.values(m.g1.xor(x1, y1), m.g2.xor(x2, y2))
    {
      ProjectedLinear(e, x2, y2, 0);
    }
    forall x1, x2, n | m.values(x1, x2)
      ensures m.values(m.g1.rotr(x1, n), m.g2.rotr(x2, n))
      ensures m.values(m.g1.shr(x1, n), m.g2.shr(x2, n))
    {
      ProjectedLinear(e, x2, x2, n);
    }
    forall c: Word ensures Opened(Triple(c, c, c), e) == Pair(c, c) {}
  }

  // ----- acceptance forces the recorded words

  /** The lowest bits of the recorded words. */
  function LowBits(ys: Tapes): (l: seq<Triple<bool>>)
    ensures |l| == |ys.p0| && forall i :: 0 <= i < |l| ==> l[i] == TripleBit(TapeWords(ys, i), 0)
  {
    seq(|ys.p0|, i requires 0 <= i < |ys.p0| => TripleBit(TapeWords(ys, i), 0))
  }

  ghost predicate Records(p: Recorded, ys: Tapes) {
    forall i :: 0 <= i < |p.ys| ==> p.ys[i] == TapeWords(ys, i)
  }

  ghost function Forcing(tapes: Tapes, ys: Tapes): Sim<Followed, Triple<Word>, Recorded, Triple<Word>> {
    Sim(FollowGates(tapes, ys), ProveGates(tapes, LowBits(ys)),
        (f: Followed, p: Recorded) => f.AllOk(),
        (f: Followed, p: Recorded) => f.count == |p.ys| && Records(p, ys),
        (x: Triple<Word>, y: Triple<Word>) => x == y)
  }

  lemma ForcedAdd(tapes: Tapes, ys: Tapes, f: Followed, p: Recorded, x: Triple<Word>, y: Triple<Word>)
    requires |ys.p0| == |ys.p1| == |ys.p2|
    requires f.count == |p.ys| && Records(p, ys)
    requires FollowAdd(tapes, ys, f, x, y).0.AllOk()
    ensures ProveAdd(tapes, LowBits(ys), p, x, y).1 == FollowAdd(tapes, ys, f, x, y).1
    ensures Records(ProveAdd(tapes, LowBits(ys), p, x, y).0, ys)
  {
    hide AddCheck, AddCarries, SumShares;
    LowBitsAt(ys, f.count);
    ChecksExact(x, y, TapeWords(tapes, f.count), TapeWords(ys, f.count));
  }

  lemma ForcedAnd(tapes: Tapes, ys: Tapes, f: Followed, p: Recorded, x: Triple<Word>, y: Triple<Word>)
    requires f.count == |p.ys| && Records(p, ys)
    requires FollowAnd(tapes, ys, f, x, y).0.AllOk()
    ensures ProveAnd(tapes, p, x, y).1 == FollowAnd(tapes, ys, f, x, y).1
    ensures Records(ProveAnd(tapes, p, x, y).0, ys)
  {
    hide AndShare;
  }

  lemma ForcingSimulates(tapes: Tapes, ys: Tapes)
    requires |ys.p0| == |ys.p1| == |ys.p2|
    ensures Simulates(Forcing(tapes, ys))
  {
    var m := Forcing(tapes, ys);
    hide AddCheck, AddCarries, SumShares, AndShares, XorShares, RotrShares, ShrShares, Records;
    forall s1, s2, x1, x2, y1, y2
      ensures Step(m, s1, s2, x1, x2, y1, y2, m.g1.add(s1, x1, y1), m.g2.add(s2, x2, y2))
    {
      if m.good(m.g1.add(s1, x1, y1).0, m.g2.add(s2, x2, y2).0) && m.states(s1, s2) {
        ForcedAdd(tapes, ys, s1, s2, x1, y1);
      }
    }
    forall s1, s2, x1, x2, y1, y2
      ensures Step(m, s1, s2, x1, x2, y1, y2, m.g1.and(s1, x1, y1), m.g2.and(s2, x2, y2))
    {
      if m.good(m.g1.and(s1, x1, y1).0, m.g2.and(s2, x2, y2).0) && m.states(s1, s2) {
        ForcedAnd(tapes, ys, s1, s2, x1, y1);
      }
    }
  }

  lemma LowBitsAt(ys: Tapes, i: nat)
    requires |ys.p0| == |ys.p1| == |ys.p2|
    ensures LowAt(LowBits(ys), i) == TripleBit(TapeWords(ys, i), 0)
  {}

  // ----- the recorded words of a prover pass

  ghost function Passing(tapes: Tapes, lows: Lows, ys: Tapes): Sim<Recorded, Triple<Word>, Followed, Triple<Word>> {
    Sim(ProveGates(tapes, lows), FollowGates(tapes, ys),
        (p: Recorded, f: Followed) => Records(p, ys),
        (p: Recorded, f: Followed) => f.count == |p.ys| && f.AllOk(),
        (x: Triple<Word>, y: Triple<Word>) => x == y)
  }

  lemma PassedAdd(tapes: Tapes, lows: Lows, ys: Tapes, p: Recorded, f: Followed, x: Triple<Word>, y: Triple<Word>)
    requires f.count == |p.ys|
    requires Records(ProveAdd(tapes, lows, p, x, y).0, ys)
    ensures Records(p, ys)
    ensures FollowAdd(tapes, ys, f, x, y).0 == Followed(f.count + 1, f.ok)
    ensures FollowAdd(tapes, ys, f, x, y).1 == ProveAdd(tapes, lows, p, x, y).1
    ensures |ProveAdd(tapes, lows, p, x, y).0.ys| == f.count + 1
  {
    hide AddCheck, AddCarries, SumShares, TripleBit;
    CarriesPassChecks(x, y, TapeWords(tapes, |p.ys|), LowAt(lows, |p.ys|));
    RecordsExtended(ProveAdd(tapes, lows, p, x, y).0, p, ys);
  }

  lemma PassedAnd(tapes: Tapes, ys: Tapes, p: Recorded, f: Followed, x: Triple<Word>, y: Triple<Word>)
    requires f.count == |p.ys|
    requires Records(ProveAnd(tapes, p, x, y).0, ys)
    ensures Records(p, ys)
    ensures FollowAnd(tapes, ys, f, x, y).0 == Followed(f.count + 1, f.ok)
    ensures FollowAnd(tapes, ys, f, x, y).1 == ProveAnd(tapes, p, x, y).1
    ensures |ProveAnd(tapes, p, x, y).0.ys| == f.count + 1
  {
    hide AndShares;
    RecordsExtended(ProveAnd(tapes, p, x, y).0, p, ys);
  }

  lemma PassingSimulates(tapes: Tapes, lows: Lows, ys: Tapes)
    ensures Simulates(Passing(tapes, lows, ys))
  {
    var m := Passing(tapes, lows, ys);
    hide AddCheck, AddCarries, SumShares, AndShares, XorShares, RotrShares, ShrShares, Records;
    forall s1, s2, x1, x2, y1, y2
      ensures Step(m, s1, s2, x1, x2, y1, y2, m.g1.add(s1, x1, y1), m.g2.add(s2, x2, y2))
    {
      if Records(m.g1.add(s1, x1, y1).0, ys) {
        PassedAdd(tapes, lows, ys, s1, s2.(count := |s1.ys|), x1, y1);
      }
    }
    forall s1, s2, x1, x2, y1, y2
      ensures Step(m, s1, s2, x1, x2, y1, y2, m.g1.and(s1, x1, y1), m.g2.and(s2, x2, y2))
    {
      if Records(m.g1.and(s1, x1, y1).0, ys) {
        PassedAnd(tapes, ys, s1, s2.(count := |s1.ys|), x1, y1);
      }
    }
  }

  lemma RecordsExtended(p: Recorded, s: Recorded, ys: Tapes)
    requires |p.ys| == |s.ys| + 1 && p.ys[..|s.ys|] == s.ys
    ensures Records(p, ys) ==> Records(s, ys) && p.ys[|s.ys|] == TapeWords(ys, |s.ys|)
  {
    assert forall i :: 0 <= i < |s.ys| ==> s.ys[i] == p.ys[..|s.ys|][i] == p.ys[i];
  }

  // ----- whole runs of the verifiers

  /** Block by block, the words of two separately padded shares. */
  function PairChunks(x: Pair<seq<Byte>>): (c: seq<seq<Pair<Word>>>)
    requires |x.own| == |x.next|
    ensures |c| == NumBlocks(|x.own|) && forall i :: 0 <= i < |c| ==> |c[i]| == 16
  {
    var c0, c1 := Chunks(x.own), Chunks(x.next);
    seq(|c0|, blk requires 0 <= blk < |c0| => seq(16, j requires 0 <= j < 16 => Pair(c0[blk][j], c1[blk][j])))
  }

  function VerifierRun(x: Pair<seq<Byte>>, tapes: Pair<seq<Word>>, ys: Pair<seq<Word>>)
    : (Checked, Sha256.Vars<Pair<Word>>)
    requires |x.own| == |x.next|
  {
    var g := VerifyGates(tapes, ys);
    Blocks(g, UNCHECKED, LiftVars(g, Sha256.H0), Sha256.K, PairChunks(x), NumBlocks(|x.own|))
  }

  function FollowRun(x: Triple<seq<Byte>>, tapes: Tapes, ys: Tapes): (Followed, Sha256.Vars<Triple<Word>>)
    requires SameLength(x)
  {
    var g := FollowGates(tapes, ys);
    Blocks(g, UNFOLLOWED, LiftVars(g, Sha256.H0), Sha256.K, ShareChunks(x), NumBlocks(|x.p0|))
  }

  function OwnWords(v: Sha256.Vars<Pair<Word>>): seq<Word> {
    [v.a.own, v.b.own, v.c.own, v.d.own, v.e.own, v.f.own, v.g.own, v.h.own]
  }

  function NextWords(v: Sha256.Vars<Pair<Word>>): seq<Word> {
    [v.a.next, v.b.next, v.c.next, v.d.next, v.e.next, v.f.next, v.g.next, v.h.next]
  }

  /** What mpc_sha256_verify decides, given two opened inputs, tapes, views and output shares. */
  predicate Accepts(x: Pair<seq<Byte>>, tapes: Pair<seq<Word>>, ys: Pair<seq<Word>>, outs: Pair<seq<Word>>)
    requires |x.own| == |x.next|
  {
    var r := VerifierRun(x, tapes, ys);
    r.0.ok && OwnWords(r.1) == outs.own && NextWords(r.1) == outs.next
  }

  lemma PairChunksOpened(x: Triple<seq<Byte>>, tapes: Tapes, ys: Tapes, e: nat)
    requires SameLength(x) && e < 3
    ensures |Opened(x, e).own| == |Opened(x, e).next| == |x.p0|
    ensures SameChunks(Projection(tapes, ys, e), PairChunks(Opened(x, e)), ShareChunks(x))
  {
    hide Chunks;
    var c, d := PairChunks(Opened(x, e)), ShareChunks(x);
    forall i, j | 0 <= i < |d| && 0 <= j < 16 ensures c[i][j] == Opened(d[i][j], e) {
      if e == 0 {} else if e == 1 {} else {}
    }
  }

  lemma RunProjected(x: Triple<seq<Byte>>, tapes: Tapes, ys: Tapes, e: nat)
    requires SameLength(x) && e < 3
    ensures |Opened(x, e).own| == |Opened(x, e).next|
    ensures var v, f := VerifierRun(Opened(x, e), Opened(tapes, e), Opened(ys, e)), FollowRun(x, tapes, ys);
      && v.0.ok == f.0.ok.At(e)
      && OwnWords(v.1) == PartyWords(f.1, e) && NextWords(v.1) == PartyWords(f.1, e + 1)
  {
    hide Blocks, ShareChunks, PairChunks, NumBlocks;
    var m := Projection(tapes, ys, e);
    ProjectionSimulates(tapes, ys, e);
    PairChunksOpened(x, tapes, ys, e);
    forall c: Word ensures Opened(Triple(c, c, c), e) == Pair(c, c) {}
    assert UNFOLLOWED.ok.At(e);
    SimulateBlocks(m, UNCHECKED, UNFOLLOWED, LiftVars(m.g1, Sha256.H0), LiftVars(m.g2, Sha256.H0), Sha256.K,
                   PairChunks(Opened(x, e)), ShareChunks(x), NumBlocks(|x.p0|));
  }

  ghost function VerifierCounting(tapes: Pair<seq<Word>>, ys: Pair<seq<Word>>)
    : Sim<Checked, Pair<Word>, seq<bool>, ()>
  {
    Sim(VerifyGates(tapes, ys), CountGates(), (v, s) => true, (v: Checked, s: seq<bool>) => v.count == |s|,
        (x, u) => true)
  }

  lemma VerifierCountingSimulates(tapes: Pair<seq<Word>>, ys: Pair<seq<Word>>)
    ensures Simulates(VerifierCounting(tapes, ys))
  {
    hide AddCheck, AndShare, XorPair, Rotr, Shr;
  }

  lemma BlocksCount(tapes: Pair<seq<Word>>, ys: Pair<seq<Word>>, h: Sha256.Vars<Pair<Word>>, k: seq<Word>,
                    c: seq<seq<Pair<Word>>>, n: nat)
    requires |k| == 64 && n <= |c| && forall i :: 0 <= i < |c| ==> |c[i]| == 16
    ensures Blocks(VerifyGates(tapes, ys), UNCHECKED, h, k, c, n).0.count == GATES_PER_BLOCK * n
  {
    hide Blocks, BlockGates, Repeat, Simulates;
    var m := VerifierCounting(tapes, ys);
    VerifierCountingSimulates(tapes, ys);
    var u := LiftVars(CountGates(), Sha256.Vars(ZERO, ZERO, ZERO, ZERO, ZERO, ZERO, ZERO, ZERO));
    SimulateBlocks(m, UNCHECKED, [], h, u, k, c, Units(|c|), n);
    CountBlocks([], u, k, Units(|c|), n);
    BlockGatesLength();
  }

  /** A replay over n blocks consumes exactly the 728 * n tape and view words the prover produced. */
  lemma VerifierBudget(x: Pair<seq<Byte>>, tapes: Pair<seq<Word>>, ys: Pair<seq<Word>>)
    requires |x.own| == |x.next|
    ensures VerifierRun(x, tapes, ys).0.count == GATES_PER_BLOCK * NumBlocks(|x.own|)
  {
    hide Blocks, PairChunks, NumBlocks, LiftVars, VerifyGates;
    var h := LiftVars(VerifyGates(tapes, ys), Sha256.H0);
    BlocksCount(tapes, ys, h, Sha256.K, PairChunks(x), NumBlocks(|x.own|));
  }

  lemma AllOkForces(x: Triple<seq<Byte>>, tapes: Tapes, ys: Tapes)
    requires SameLength(x) && |ys.p0| == |ys.p1| == |ys.p2|
    requires FollowRun(x, tapes, ys).0.AllOk()
    ensures var p := ProverRun(x, tapes, LowBits(ys));
      Records(p.0, ys) && p.1 == FollowRun(x, tapes, ys).1
  {
    hide Blocks, ShareChunks, NumBlocks, LowBits, LiftVars, Simulates, Records;
    var m := Forcing(tapes, ys);
    ForcingSimulates(tapes, ys);
    SameLift(LowBits(ys), tapes, ys);
    assert Records(NOTHING, ys) by { RecordsNothing(ys); }
    SimulateEqual(m, UNFOLLOWED, NOTHING, LiftVars(m.g1, Sha256.H0), Sha256.K, ShareChunks(x), NumBlocks(|x.p0|));
  }

  lemma BlocksPass(tapes: Tapes, lows: Lows, ys: Tapes, h: Sha256.Vars<Triple<Word>>, k: seq<Word>,
                   c: seq<seq<Triple<Word>>>, n: nat)
    requires |k| == 64 && n <= |c| && forall i :: 0 <= i < |c| ==> |c[i]| == 16
    requires Records(Blocks(ProveGates(tapes, lows), NOTHING, h, k, c, n).0, ys)
    ensures var p := Blocks(ProveGates(tapes, lows), NOTHING, h, k, c, n);
      var f := Blocks(FollowGates(tapes, ys), UNFOLLOWED, h, k, c, n);
      f.0.AllOk() && p.1 == f.1
  {
    hide Blocks, Simulates, Records;
    var m := Passing(tapes, lows, ys);
    PassingSimulates(tapes, lows, ys);
    assert UNFOLLOWED.AllOk() && UNFOLLOWED.count == |NOTHING.ys|;
    SimulateEqual(m, NOTHING, UNFOLLOWED, h, k, c, n);
  }

  lemma RecordedPasses(x: Triple<seq<Byte>>, tapes: Tapes, lows: Lows, ys: Tapes)
    requires SameLength(x) && Records(ProverRun(x, tapes, lows).0, ys)
    ensures var f := FollowRun(x, tapes, ys);
      f.0.AllOk() && ProverRun(x, tapes, lows).1 == f.1
  {
    hide Blocks, ShareChunks, NumBlocks, LiftVars, Records, ProveGates, FollowGates;
    SameLift(lows, tapes, ys);
    BlocksPass(tapes, lows, ys, LiftVars(ProveGates(tapes, lows), Sha256.H0), Sha256.K, ShareChunks(x),
               NumBlocks(|x.p0|));
  }

  lemma SameLift(lows: Lows, tapes: Tapes, ys: Tapes)
    ensures LiftVars(ProveGates(tapes, lows), Sha256.H0) == LiftVars(FollowGates(tapes, ys), Sha256.H0)
  {}

  lemma RecordsNothing(ys: Tapes)
    ensures Records(NOTHING, ys)
  {}

  ghost predicate AllAccept(x: Triple<seq<Byte>>, tapes: Tapes, ys: Tapes, outs: Triple<seq<Word>>)
    requires SameLength(x)
  {
    forall e :: 0 <= e < 3 ==> AcceptsChallenge(x, tapes, ys, outs, e)
  }

  ghost predicate AcceptsChallenge(x: Triple<seq<Byte>>, tapes: Tapes, ys: Tapes, outs: Triple<seq<Word>>, e: nat)
    requires SameLength(x)
  {
    Accepts(Opened(x, e), Opened(tapes, e), Opened(ys, e), Opened(outs, e))
  }

  lemma AllAcceptFollows(x: Triple<seq<Byte>>, tapes: Tapes, ys: Tapes, outs: Triple<seq<Word>>)
    requires SameLength(x)
    ensures AllAccept(x, tapes, ys, outs)
            <==> FollowRun(x, tapes, ys).0.AllOk() && outs == OutputShares(FollowRun(x, tapes, ys).1)
  {
    hide FollowRun, VerifierRun, OwnWords, NextWords, PartyWords;
    RunProjected(x, tapes, ys, 0);
    RunProjected(x, tapes, ys, 1);
    RunProjected(x, tapes, ys, 2);
    var f := FollowRun(x, tapes, ys);
    PartyWordsWrap(f.1);
    assert AcceptsChallenge(x, tapes, ys, outs, 0) <==>
      f.0.ok.p0 && outs.p0 == PartyWords(f.1, 0) && outs.p1 == PartyWords(f.1, 1);
    assert AcceptsChallenge(x, tapes, ys, outs, 1) <==>
      f.0.ok.p1 && outs.p1 == PartyWords(f.1, 1) && outs.p2 == PartyWords(f.1, 2);
    assert AcceptsChallenge(x, tapes, ys, outs, 2) <==>
      f.0.ok.p2 && outs.p2 == PartyWords(f.1, 2) && outs.p0 == PartyWords(f.1, 0);
  }

  lemma PartyWordsWrap(v: Sha256.Vars<Triple<Word>>)
    ensures PartyWords(v, 3) == PartyWords(v, 0)
  {}

  /** All three challenges are accepted exactly when the recorded words are the ones the circuit
      forces from the inputs, the tapes and the lowest bits of the recorded words, and the output
      shares are the resulting ones. */
  lemma AcceptanceExact(x: Triple<seq<Byte>>, tapes: Tapes, ys: Tapes, outs: Triple<seq<Word>>)
    requires SameLength(x) && |ys.p0| == |ys.p1| == |ys.p2|
    ensures AllAccept(x, tapes, ys, outs) <==>
      var p := ProverRun(x, tapes, LowBits(ys));
      Records(p.0, ys) && outs == OutputShares(p.1)
  {
    hide ProverRun, FollowRun, AllAccept, Records;
    AllAcceptFollows(x, tapes, ys, outs);
    if FollowRun(x, tapes, ys).0.AllOk() { AllOkForces(x, tapes, ys); }
    if Records(ProverRun(x, tapes, LowBits(ys)).0, ys) { RecordedPasses(x, tapes, LowBits(ys), ys); }
  }

  /** Every single challenge is accepted on what a run records, whatever its lowest carry bits. */
  lemma RunAccepted(x: Triple<seq<Byte>>, tapes: Tapes, lows: Lows, ys: Tapes)
    requires SameLength(x) && Records(ProverRun(x, tapes, lows).0, ys)
    ensures AllAccept(x, tapes, ys, OutputShares(ProverRun(x, tapes, lows).1))
  {
    hide ProverRun, FollowRun, AllAccept, Records;
    RecordedPasses(x, tapes, lows, ys);
    AllAcceptFollows(x, tapes, ys, OutputShares(ProverRun(x, tapes, lows).1));
  }

  /** Every single challenge is accepted on an honest transcript. */
  lemma Completeness(x: Triple<seq<Byte>>, tapes: Tapes, ys: Tapes)
    requires SameLength(x) && Records(ProverRun(x, tapes, []).0, ys)
    ensures AllAccept(x, tapes, ys, OutputShares(ProverRun(x, tapes, []).1))
  {
    hide ProverRun, AllAccept, Records;
    RunAccepted(x, tapes, [], ys);
  }
}
