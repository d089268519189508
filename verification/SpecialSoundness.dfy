/** What a transcript accepted for all three challenges proves about the opened input. */
module SpecialSoundness {
  import opened Bits
  import opened Shares
  import opened Circuit
  import opened Evaluations
  import opened Padding
  import opened Refinement
  import opened Budget
  import opened Soundness
  import Sha256

  /** The eight words that three output shares open to. */
  function OpenWords(outs: Triple<seq<Word>>): (w: seq<Word>)
    requires |outs.p0| == |outs.p1| == |outs.p2|
    ensures |w| == |outs.p0|
  {
    seq(|outs.p0|, i requires 0 <= i < |outs.p0| => Xor3(Triple(outs.p0[i], outs.p1[i], outs.p2[i])))
  }

  lemma OutputSharesOpen(v: Sha256.Vars<Triple<Word>>)
    ensures OpenWords(OutputShares(v)) == Sha256.WordsOf(OpenVars(v))
  {
    hide Xor3;
    var l, r := OpenWords(OutputShares(v)), Sha256.WordsOf(OpenVars(v));
    assert l[0] == r[0] && l[1] == r[1] && l[2] == r[2] && l[3] == r[3];
    assert l[4] == r[4] && l[5] == r[5] && l[6] == r[6] && l[7] == r[7];
  }

  /** The lowest bits recorded at an ADD gate cancel. */
  ghost predicate LowBitsCancel(x: Triple<seq<Byte>>, ys: Tapes) {
    forall i :: 0 <= i < GATES_PER_BLOCK * NumBlocks(|x.p0|) && IsAddGate(i) ==>
      !CarryIn(TripleBit(TapeWords(ys, i), 0))
  }

  /** The lowest bits recorded at an ADD gate are clear. */
  ghost predicate LowBitsClear(x: Triple<seq<Byte>>, ys: Tapes) {
    forall i :: 0 <= i < GATES_PER_BLOCK * NumBlocks(|x.p0|) && IsAddGate(i) ==>
      TripleBit(TapeWords(ys, i), 0) == NO_CARRY
  }

  // ----- carry-ins that cancel at every ADD gate leave SHA-256

  ghost predicate Cancels(p: Recorded, lows: Lows) {
    |p.adds| == |p.ys| && forall i :: 0 <= i < |p.adds| && p.adds[i] ==> !CarryIn(LowAt(lows, i))
  }

  ghost function QuietOpening(tapes: Tapes, lows: Lows): Sim<Recorded, Triple<Word>, nat, Word> {
    Sim(ProveGates(tapes, lows), PlainGates([]),
        (p: Recorded, n: nat) => Cancels(p, lows), (p: Recorded, n: nat) => |p.ys| == n,
        (x: Triple<Word>, w: Word) => Xor3(x) == w)
  }

  lemma QuietAdd(tapes: Tapes, lows: Lows, p: Recorded, x: Triple<Word>, y: Triple<Word>)
    requires Cancels(ProveAdd(tapes, lows, p, x, y).0, lows)
    ensures Cancels(p, lows)
    ensures Xor3(ProveAdd(tapes, lows, p, x, y).1) == AddCarry(Xor3(x), Xor3(y), false)
    ensures |ProveAdd(tapes, lows, p, x, y).0.ys| == |p.ys| + 1
  {
    hide AddCarry, AddCarries, SumShares, Xor3;
    var q := ProveAdd(tapes, lows, p, x, y).0;
    assert q.adds[|p.adds|];
    assert forall i :: 0 <= i < |p.adds| ==> q.adds[i] == p.adds[i];
    SumSharesOpen(x, y, TapeWords(tapes, |p.ys|), LowAt(lows, |p.ys|));
  }

  lemma QuietAnd(tapes: Tapes, lows: Lows, p: Recorded, x: Triple<Word>, y: Triple<Word>)
    requires Cancels(ProveAnd(tapes, p, x, y).0, lows)
    ensures Cancels(p, lows)
    ensures Xor3(ProveAnd(tapes, p, x, y).1) == And(Xor3(x), Xor3(y))
    ensures |ProveAnd(tapes, p, x, y).0.ys| == |p.ys| + 1
  {
    hide AndShares, And, Xor3;
    var q := ProveAnd(tapes, p, x, y).0;
    assert forall i :: 0 <= i < |p.adds| ==> q.adds[i] == p.adds[i];
    AndSharesOpen(x, y, TapeWords(tapes, |p.ys|));
  }

  lemma QuietOpeningSimulates(tapes: Tapes, lows: Lows)
    ensures Simulates(QuietOpening(tapes, lows))
  {
    var m := QuietOpening(tapes, lows);
    hide Cancels, ProveAdd, ProveAnd, AddCarry, And;
    forall s1, s2, x1, x2, y1, y2
      ensures Step(m, s1, s2, x1, x2, y1, y2, m.g1.add(s1, x1, y1), m.g2.add(s2, x2, y2))
    {
      if Cancels(ProveAdd(tapes, lows, s1, x1, y1).0, lows) { QuietAdd(tapes, lows, s1, x1, y1); }
    }
    forall s1, s2, x1, x2, y1, y2
      ensures Step(m, s1, s2, x1, x2, y1, y2, m.g1.and(s1, x1, y1), m.g2.and(s2, x2, y2))
    {
      if Cancels(ProveAnd(tapes, s1, x1, y1).0, lows) { QuietAnd(tapes, lows, s1, x1, y1); }
    }
    forall x, y ensures Xor3(XorShares(x, y)) == Xor(Xor3(x), Xor3(y)) {}
    forall x, n ensures Xor3(RotrShares(x, n)) == Rotr(Xor3(x), n) {}
    forall x, n ensures Xor3(ShrShares(x, n)) == Shr(Xor3(x), n) {}
    forall c: Word ensures Xor3(Triple(c, c, c)) == c {}
  }

  lemma QuietProverOpens(x: Triple<seq<Byte>>, tapes: Tapes, lows: Lows)
    requires SameLength(x) && Cancels(ProverRun(x, tapes, lows).0, lows)
    ensures OpenVars(ProverRun(x, tapes, lows).1) == CarryInHash([], XorBytes3(x))
  {
    hide Blocks, ShareChunks, Chunks, XorBytes3, NumBlocks, LiftVars, Simulates, OpenVars, Cancels;
    var m := QuietOpening(tapes, lows);
    QuietOpeningSimulates(tapes, lows);
    LiftOpens(tapes, lows);
    SimulateOpening(m, NOTHING, 0, LiftVars(m.g1, Sha256.H0), Sha256.H0, Sha256.K, x);
  }

  // ----- clear lowest bits leave the honest run

  ghost predicate Clears(p: Recorded, lows: Lows) {
    |p.adds| == |p.ys| && forall i :: 0 <= i < |p.adds| && p.adds[i] ==> LowAt(lows, i) == NO_CARRY
  }

  ghost function Clearing(tapes: Tapes, lows: Lows): Sim<Recorded, Triple<Word>, Recorded, Triple<Word>> {
    Sim(ProveGates(tapes, lows), ProveGates(tapes, []),
        (p: Recorded, q: Recorded) => Clears(p, lows), (p: Recorded, q: Recorded) => p == q,
        (x: Triple<Word>, y: Triple<Word>) => x == y)
  }

  lemma ClearAdd(tapes: Tapes, lows: Lows, p: Recorded, x: Triple<Word>, y: Triple<Word>)
    requires Clears(ProveAdd(tapes, lows, p, x, y).0, lows)
    ensures Clears(p, lows) && ProveAdd(tapes, lows, p, x, y) == ProveAdd(tapes, [], p, x, y)
  {
    hide AddCarries, SumShares;
    var q := ProveAdd(tapes, lows, p, x, y).0;
    assert q.adds[|p.adds|];
    assert forall i :: 0 <= i < |p.adds| ==> q.adds[i] == p.adds[i];
  }

  lemma ClearAnd(tapes: Tapes, lows: Lows, p: Recorded, x: Triple<Word>, y: Triple<Word>)
    requires Clears(ProveAnd(tapes, p, x, y).0, lows)
    ensures Clears(p, lows)
  {
    hide AndShares;
    var q := ProveAnd(tapes, p, x, y).0;
    assert forall i :: 0 <= i < |p.adds| ==> q.adds[i] == p.adds[i];
  }

  lemma ClearingSimulates(tapes: Tapes, lows: Lows)
    ensures Simulates(Clearing(tapes, lows))
  {
    var m := Clearing(tapes, lows);
    hide Clears, ProveAdd, ProveAnd, XorShares, RotrShares, ShrShares;
    forall s1, s2, x1, x2, y1, y2
      ensures Step(m, s1, s2, x1, x2, y1, y2, m.g1.add(s1, x1, y1), m.g2.add(s2, x2, y2))
    {
      if Clears(ProveAdd(tapes, lows, s1, x1, y1).0, lows) { ClearAdd(tapes, lows, s1, x1, y1); }
    }
    forall s1, s2, x1, x2, y1, y2
      ensures Step(m, s1, s2, x1, x2, y1, y2, m.g1.and(s1, x1, y1), m.g2.and(s2, x2, y2))
    {
      if Clears(ProveAnd(tapes, s1, x1, y1).0, lows) { ClearAnd(tapes, lows, s1, x1, y1); }
    }
  }

  lemma ClearRun(x: Triple<seq<Byte>>, tapes: Tapes, lows: Lows)
    requires SameLength(x) && Clears(ProverRun(x, tapes, lows).0, lows)
    ensures ProverRun(x, tapes, lows) == ProverRun(x, tapes, [])
  {
    hide Blocks, ShareChunks, NumBlocks, LiftVars, Simulates, Clears;
    var m := Clearing(tapes, lows);
    ClearingSimulates(tapes, lows);
    SameLift(lows, tapes, tapes);
    SameLift([], tapes, tapes);
    SimulateEqual(m, NOTHING, NOTHING, LiftVars(m.g1, Sha256.H0), Sha256.K, ShareChunks(x), NumBlocks(|x.p0|));
  }

  // ----- the theorems

  ghost predicate FullViews(x: Triple<seq<Byte>>, ys: Tapes) {
    |ys.p0| == |ys.p1| == |ys.p2| == GATES_PER_BLOCK * NumBlocks(|x.p0|)
  }

  /** A transcript accepted for all three challenges opens to the hash of the opened input with the
      carry-ins its lowest bits open to. */
  lemma AcceptedOpens(x: Triple<seq<Byte>>, tapes: Tapes, ys: Tapes, outs: Triple<seq<Word>>)
    requires SameLength(x) && FullViews(x, ys) && AllAccept(x, tapes, ys, outs)
    ensures |outs.p0| == |outs.p1| == |outs.p2|
    ensures OpenWords(outs) == Sha256.WordsOf(CarryInHash(CarryIns(LowBits(ys)), XorBytes3(x)))
  {
    hide ProverRun, AllAccept, Records, CarryInHash, OpenVars, OpenWords, CarryIns, LowBits, XorBytes3;
    AcceptanceExact(x, tapes, ys, outs);
    OutputSharesOpen(ProverRun(x, tapes, LowBits(ys)).1);
    ProverOpens(x, tapes, LowBits(ys));
  }

  /** If moreover the lowest carry bits cancel at every ADD gate, it opens to SHA-256. */
  lemma AcceptedIsSha256(x: Triple<seq<Byte>>, tapes: Tapes, ys: Tapes, outs: Triple<seq<Word>>)
    requires SameLength(x) && FullViews(x, ys) && AllAccept(x, tapes, ys, outs)
    ensures |outs.p0| == |outs.p1| == |outs.p2|
    ensures LowBitsCancel(x, ys) ==> OpenWords(outs) == Sha256.WordsOf(Sha256.Hash(Sha256.BitString(XorBytes3(x))))
  {
    hide ProverRun, AllAccept, Records, OpenVars, OpenWords, XorBytes3, LowBitsCancel, Sha256.Hash;
    AcceptanceExact(x, tapes, ys, outs);
    if LowBitsCancel(x, ys) { CancelledRun(x, tapes, ys); }
  }

  lemma CancelledRun(x: Triple<seq<Byte>>, tapes: Tapes, ys: Tapes)
    requires SameLength(x) && FullViews(x, ys) && LowBitsCancel(x, ys)
    ensures OpenWords(OutputShares(ProverRun(x, tapes, LowBits(ys)).1))
        == Sha256.WordsOf(Sha256.Hash(Sha256.BitString(XorBytes3(x))))
  {
    hide ProverRun, CarryInHash, OpenVars, OpenWords, XorBytes3, IsAddGate, NumBlocks;
    OutputSharesOpen(ProverRun(x, tapes, LowBits(ys)).1);
    ProverBudget(x, tapes, LowBits(ys));
    assert Cancels(ProverRun(x, tapes, LowBits(ys)).0, LowBits(ys));
    QuietProverOpens(x, tapes, LowBits(ys));
    NoCarryInHash(XorBytes3(x));
  }

  // ----- what a run records in the lowest bits

  ghost predicate RecordsLows(p: Recorded, lows: Lows) {
    |p.adds| == |p.ys| && forall i :: 0 <= i < |p.adds| && p.adds[i] ==> TripleBit(p.ys[i], 0) == LowAt(lows, i)
  }

  ghost function Lowest(tapes: Tapes, lows: Lows): Sim<Recorded, Triple<Word>, seq<bool>, ()> {
    Sim(ProveGates(tapes, lows), CountGates(), (p, s) => true,
        (p: Recorded, s: seq<bool>) => RecordsLows(p, lows), (x, u) => true)
  }

  lemma LowestSimulates(tapes: Tapes, lows: Lows)
    ensures Simulates(Lowest(tapes, lows))
  {
    hide AddCarries, SumShares, AndShares, XorShares, RotrShares, ShrShares, TripleBit;
    var m := Lowest(tapes, lows);
    forall s1, s2, x1, x2, y1, y2
      ensures Step(m, s1, s2, x1, x2, y1, y2, m.g1.add(s1, x1, y1), m.g2.add(s2, x2, y2))
    {
      CarriesPassChecks(x1, y1, TapeWords(tapes, |s1.ys|), LowAt(lows, |s1.ys|));
    }
  }

  /** The lowest bits recorded at the ADD gates of a run are the ones it starts from. */
  lemma RunRecordsLows(x: Triple<seq<Byte>>, tapes: Tapes, lows: Lows)
    requires SameLength(x)
    ensures RecordsLows(ProverRun(x, tapes, lows).0, lows)
  {
    hide Blocks, ShareChunks, NumBlocks, LiftVars, Simulates;
    var m := Lowest(tapes, lows);
    var n := NumBlocks(|x.p0|);
    LowestSimulates(tapes, lows);
    SimulateBlocks(m, NOTHING, [], LiftVars(m.g1, Sha256.H0), LiftVars(CountGates(), Sha256.H0), Sha256.K,
                   ShareChunks(x), Units(n), n);
  }

  /** An accepted transcript is the honest one, in its recorded words and output shares, if and only
      if its lowest bits are clear at every ADD gate. */
  lemma AcceptedIsHonest(x: Triple<seq<Byte>>, tapes: Tapes, ys: Tapes, outs: Triple<seq<Word>>)
    requires SameLength(x) && FullViews(x, ys) && AllAccept(x, tapes, ys, outs)
    ensures |ProverRun(x, tapes, []).0.ys| == |ys.p0|
    ensures LowBitsClear(x, ys) <==>
      Records(ProverRun(x, tapes, []).0, ys) && outs == OutputShares(ProverRun(x, tapes, []).1)
  {
    hide ProverRun, AllAccept, Records, IsAddGate, NumBlocks, TripleBit, TapeWords, LowBitsClear;
    AcceptanceExact(x, tapes, ys, outs);
    ProverBudget(x, tapes, []);
    if LowBitsClear(x, ys) { ClearIsHonest(x, tapes, ys); }
    if Records(ProverRun(x, tapes, []).0, ys) { HonestIsClear(x, tapes, ys); }
  }

  lemma ClearIsHonest(x: Triple<seq<Byte>>, tapes: Tapes, ys: Tapes)
    requires SameLength(x) && FullViews(x, ys) && LowBitsClear(x, ys)
    ensures ProverRun(x, tapes, LowBits(ys)) == ProverRun(x, tapes, [])
  {
    hide ProverRun, IsAddGate, NumBlocks;
    ProverBudget(x, tapes, LowBits(ys));
    assert Clears(ProverRun(x, tapes, LowBits(ys)).0, LowBits(ys));
    ClearRun(x, tapes, LowBits(ys));
  }

  lemma HonestIsClear(x: Triple<seq<Byte>>, tapes: Tapes, ys: Tapes)
    requires SameLength(x) && Records(ProverRun(x, tapes, []).0, ys)
    ensures LowBitsClear(x, ys)
  {
    hide ProverRun, IsAddGate, NumBlocks, TripleBit, TapeWords;
    RunRecordsLows(x, tapes, []);
    ProverBudget(x, tapes, []);
  }
}
