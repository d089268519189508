/** What the lowest carry bits, which no verifier checks, decide about an accepted run. */
module LowCarries {
  import opened Bits
  import opened Shares
  import opened Circuit
  import opened Evaluations
  import opened Padding
  import opened Refinement
  import opened Budget
  import opened Soundness
  import opened SpecialSoundness
  import Sha256

  // ----- which gates of an accepted run compute what they should

  /** The joint replay, and for every gate whether its output opens to the sum or the conjunction of
      its opened inputs. */
  datatype Audited = Audited(run: Followed, exact: seq<bool>)

  const UNAUDITED := Audited(UNFOLLOWED, [])

  function AuditAdd(tapes: Tapes, ys: Tapes, s: Audited, x: Triple<Word>, y: Triple<Word>): (Audited, Triple<Word>) {
    var q := FollowAdd(tapes, ys, s.run, x, y);
    (Audited(q.0, s.exact + [Xor3(q.1) == Add(Xor3(x), Xor3(y))]), q.1)
  }

  function AuditAnd(tapes: Tapes, ys: Tapes, s: Audited, x: Triple<Word>, y: Triple<Word>): (Audited, Triple<Word>) {
    var q := FollowAnd(tapes, ys, s.run, x, y);
    (Audited(q.0, s.exact + [Xor3(q.1) == And(Xor3(x), Xor3(y))]), q.1)
  }

  function AuditGates(tapes: Tapes, ys: Tapes): Gates<Audited, Triple<Word>> {
    Gates((s: Audited, x: Triple<Word>, y: Triple<Word>) => AuditAdd(tapes, ys, s, x, y),
          (s: Audited, x: Triple<Word>, y: Triple<Word>) => AuditAnd(tapes, ys, s, x, y),
          (x: Triple<Word>, y: Triple<Word>) => XorShares(x, y),
          (x: Triple<Word>, n: nat) => RotrShares(x, n),
          (x: Triple<Word>, n: nat) => ShrShares(x, n),
          (c: Word) => Triple(c, c, c))
  }

  function AuditRun(x: Triple<seq<Byte>>, tapes: Tapes, ys: Tapes): (Audited, Sha256.Vars<Triple<Word>>)
    requires SameLength(x)
  {
    var g := AuditGates(tapes, ys);
    Blocks(g, UNAUDITED, LiftVars(g, Sha256.H0), Sha256.K, ShareChunks(x), NumBlocks(|x.p0|))
  }

  /** The audit replays exactly what the verifiers replay. */
  ghost function Replaying(tapes: Tapes, ys: Tapes): Sim<Audited, Triple<Word>, Followed, Triple<Word>> {
    Sim(AuditGates(tapes, ys), FollowGates(tapes, ys),
        (a, f) => true, (a: Audited, f: Followed) => a.run == f, (x: Triple<Word>, y: Triple<Word>) => x == y)
  }

  lemma ReplayingSimulates(tapes: Tapes, ys: Tapes)
    ensures Simulates(Replaying(tapes, ys))
  {
    hide FollowAdd, FollowAnd, XorShares, RotrShares, ShrShares, Add, And, Xor3;
  }

  /** Gate i was exact if and only if its recorded lowest bits cancel, or it is an AND gate. */
  ghost predicate Judged(a: Audited, p: Recorded, ys: Tapes) {
    && a.run.count == |p.ys| == |p.adds| == |a.exact|
    && forall i :: 0 <= i < |a.exact| ==> a.exact[i] == (p.adds[i] ==> !CarryIn(LowAt(LowBits(ys), i)))
  }

  ghost function Judging(tapes: Tapes, ys: Tapes): Sim<Audited, Triple<Word>, Recorded, Triple<Word>> {
    Sim(AuditGates(tapes, ys), ProveGates(tapes, LowBits(ys)),
        (a: Audited, p: Recorded) => a.run.AllOk(),
        (a: Audited, p: Recorded) => Judged(a, p, ys) && Records(p, ys),
        (x: Triple<Word>, y: Triple<Word>) => x == y)
  }

  lemma JudgedAdd(tapes: Tapes, ys: Tapes, a: Audited, p: Recorded, x: Triple<Word>, y: Triple<Word>)
    requires |ys.p0| == |ys.p1| == |ys.p2| && Judged(a, p, ys) && Records(p, ys)
    requires AuditAdd(tapes, ys, a, x, y).0.run.AllOk()
    ensures Judged(AuditAdd(tapes, ys, a, x, y).0, ProveAdd(tapes, LowBits(ys), p, x, y).0, ys)
  {
    hide AddCheck, AddCarries, SumShares, AddCarry, Add, Xor3, LowBits, Records;
    ForcedAdd(tapes, ys, a.run, p, x, y);
    var low := LowAt(LowBits(ys), |p.ys|);
    SumSharesOpen(x, y, TapeWords(tapes, |p.ys|), low);
    AddCarryDiffers(Xor3(x), Xor3(y));
    AddIsAddCarry(Xor3(x), Xor3(y));
  }

  lemma JudgedAnd(tapes: Tapes, ys: Tapes, a: Audited, p: Recorded, x: Triple<Word>, y: Triple<Word>)
    requires Judged(a, p, ys) && Records(p, ys)
    requires AuditAnd(tapes, ys, a, x, y).0.run.AllOk()
    ensures Judged(AuditAnd(tapes, ys, a, x, y).0, ProveAnd(tapes, p, x, y).0, ys)
  {
    hide AndShares, And, Xor3, LowBits, Records;
    ForcedAnd(tapes, ys, a.run, p, x, y);
    AndSharesOpen(x, y, TapeWords(tapes, |p.ys|));
  }

  lemma JudgingSimulates(tapes: Tapes, ys: Tapes)
    requires |ys.p0| == |ys.p1| == |ys.p2|
    ensures Simulates(Judging(tapes, ys))
  {
    var m := Judging(tapes, ys);
    hide AddCheck, AddCarries, SumShares, AndShares, XorShares, RotrShares, ShrShares, Records, Judged, Add, And,
         Xor3, LowBits;
    forall s1, s2, x1, x2, y1, y2
      ensures Step(m, s1, s2, x1, x2, y1, y2, m.g1.add(s1, x1, y1), m.g2.add(s2, x2, y2))
    {
      if m.good(m.g1.add(s1, x1, y1).0, m.g2.add(s2, x2, y2).0) && m.states(s1, s2) {
        assert s1.run.count == |s2.ys| by { JudgedCount(s1, s2, ys); }
        JudgedAdd(tapes, ys, s1, s2, x1, y1);
        ForcedAdd(tapes, ys, s1.run, s2, x1, y1);
      }
    }
    forall s1, s2, x1, x2, y1, y2
      ensures Step(m, s1, s2, x1, x2, y1, y2, m.g1.and(s1, x1, y1), m.g2.and(s2, x2, y2))
    {
      if m.good(m.g1.and(s1, x1, y1).0, m.g2.and(s2, x2, y2).0) && m.states(s1, s2) {
        assert s1.run.count == |s2.ys| by { JudgedCount(s1, s2, ys); }
        JudgedAnd(tapes, ys, s1, s2, x1, y1);
        ForcedAnd(tapes, ys, s1.run, s2, x1, y1);
      }
    }
  }

  lemma JudgedCount(a: Audited, p: Recorded, ys: Tapes)
    requires Judged(a, p, ys)
    ensures a.run.count == |p.ys|
  {}

  lemma NothingJudged(ys: Tapes)
    ensures Judged(UNAUDITED, NOTHING, ys) && Records(NOTHING, ys)
  {}

  lemma BlocksJudged(tapes: Tapes, ys: Tapes, h: Sha256.Vars<Triple<Word>>, k: seq<Word>, c: seq<seq<Triple<Word>>>,
                     n: nat)
    requires |k| == 64 && n <= |c| && forall i :: 0 <= i < |c| ==> |c[i]| == 16
    requires |ys.p0| == |ys.p1| == |ys.p2|
    requires Blocks(FollowGates(tapes, ys), UNFOLLOWED, h, k, c, n).0.AllOk()
    ensures var a := Blocks(AuditGates(tapes, ys), UNAUDITED, h, k, c, n);
      Judged(a.0, Blocks(ProveGates(tapes, LowBits(ys)), NOTHING, h, k, c, n).0, ys)
  {
    hide Blocks, Simulates, LowBits, Judged, Records;
    ReplayingSimulates(tapes, ys);
    JudgingSimulates(tapes, ys);
    assert UNAUDITED.run == UNFOLLOWED && UNFOLLOWED.count == |NOTHING.ys|;
    assert Judged(UNAUDITED, NOTHING, ys) && Records(NOTHING, ys) by { NothingJudged(ys); }
    SimulateEqual(Replaying(tapes, ys), UNAUDITED, UNFOLLOWED, h, k, c, n);
    SimulateEqual(Judging(tapes, ys), UNAUDITED, NOTHING, h, k, c, n);
  }

  /** In an accepted run exactly the ADD gates whose recorded lowest bits do not cancel are wrong. */
  lemma AcceptedGates(x: Triple<seq<Byte>>, tapes: Tapes, ys: Tapes, outs: Triple<seq<Word>>)
    requires SameLength(x) && FullViews(x, ys) && AllAccept(x, tapes, ys, outs)
    ensures var exact := AuditRun(x, tapes, ys).0.exact;
      && |exact| == GATES_PER_BLOCK * NumBlocks(|x.p0|)
      && forall i :: 0 <= i < |exact| ==> exact[i] == (IsAddGate(i) ==> !CarryIn(TripleBit(TapeWords(ys, i), 0)))
  {
    hide Blocks, ShareChunks, NumBlocks, LiftVars, ProveGates, FollowGates, AuditGates, AllAccept, IsAddGate, LowBits,
         TripleBit, TapeWords;
    AllAcceptFollows(x, tapes, ys, outs);
    ProverBudget(x, tapes, LowBits(ys));
    SameLift(LowBits(ys), tapes, ys);
    AuditLift(tapes, ys);
    BlocksJudged(tapes, ys, LiftVars(FollowGates(tapes, ys), Sha256.H0), Sha256.K, ShareChunks(x), NumBlocks(|x.p0|));
    forall i | 0 <= i < |ys.p0| ensures LowAt(LowBits(ys), i) == TripleBit(TapeWords(ys, i), 0) { LowBitsAt(ys, i); }
  }

  lemma AuditLift(tapes: Tapes, ys: Tapes)
    ensures LiftVars(AuditGates(tapes, ys), Sha256.H0) == LiftVars(FollowGates(tapes, ys), Sha256.H0)
  {}

  /** Every gate of an accepted run is exact if and only if the lowest bits cancel at every ADD gate. */
  lemma AcceptedExact(x: Triple<seq<Byte>>, tapes: Tapes, ys: Tapes, outs: Triple<seq<Word>>)
    requires SameLength(x) && FullViews(x, ys) && AllAccept(x, tapes, ys, outs)
    ensures (forall i :: 0 <= i < |AuditRun(x, tapes, ys).0.exact| ==> AuditRun(x, tapes, ys).0.exact[i]) <==>
      LowBitsCancel(x, ys)
  {
    hide AuditRun, AllAccept, IsAddGate, NumBlocks, CarryIn, TripleBit, TapeWords;
    AcceptedGates(x, tapes, ys, outs);
  }

  // ----- exactly which words an accepted run can open to

  ghost predicate AcceptedTo(x: Triple<seq<Byte>>, tapes: Tapes, ys: Tapes, outs: Triple<seq<Word>>, w: seq<Word>)
    requires SameLength(x)
  {
    && FullViews(x, ys) && AllAccept(x, tapes, ys, outs)
    && |outs.p0| == |outs.p1| == |outs.p2| && OpenWords(outs) == w
  }

  ghost predicate Computes(m: seq<Byte>, lows: Lows, w: seq<Word>) {
    w == Sha256.WordsOf(CarryInHash(CarryIns(lows), m))
  }

  /** Every run, whatever lowest bits it starts its carries from, is accepted. */
  lemma RunAcceptedTo(x: Triple<seq<Byte>>, tapes: Tapes, lows: Lows) returns (ys: Tapes, outs: Triple<seq<Word>>)
    requires SameLength(x)
    ensures RecordsLows(ProverRun(x, tapes, lows).0, lows) && Records(ProverRun(x, tapes, lows).0, ys)
    ensures AcceptedTo(x, tapes, ys, outs, Sha256.WordsOf(CarryInHash(CarryIns(lows), XorBytes3(x))))
  {
    hide ProverRun, AllAccept, CarryInHash, CarryIns, OpenVars, OpenWords, XorBytes3, RecordsLows, NumBlocks,
         PartyWords;
    var p := ProverRun(x, tapes, lows);
    ys, outs := Columns(p.0.ys), OutputShares(p.1);
    forall i | 0 <= i < |p.0.ys| ensures p.0.ys[i] == TapeWords(ys, i) {}
    ProverBudget(x, tapes, lows);
    RunRecordsLows(x, tapes, lows);
    RunAccepted(x, tapes, lows, ys);
    OutputSharesOpen(p.1);
    ProverOpens(x, tapes, lows);
  }

  /** The words an accepted transcript on x can open to are exactly the hashes of the opened input
      with some carry-ins. */
  lemma AcceptedWords(x: Triple<seq<Byte>>, tapes: Tapes, w: seq<Word>)
    requires SameLength(x)
    ensures (exists ys, outs :: AcceptedTo(x, tapes, ys, outs, w)) <==> exists lows :: Computes(XorBytes3(x), lows, w)
  {
    hide AllAccept, CarryInHash, OpenWords, XorBytes3, NumBlocks, ProverRun;
    if ys, outs :| AcceptedTo(x, tapes, ys, outs, w) {
      AcceptedOpens(x, tapes, ys, outs);
      assert Computes(XorBytes3(x), LowBits(ys), w);
    }
    if lows :| Computes(XorBytes3(x), lows, w) {
      var ys, outs := RunAcceptedTo(x, tapes, lows);
    }
  }

  // ----- a single carry-in at the last gate changes every digest

  ghost function LastCarry(c: seq<bool>): Sim<nat, Word, nat, Word> {
    Sim(PlainGates(c), PlainGates([]), (s: nat, t: nat) => s < |c|, (s: nat, t: nat) => s == t,
        (x: Word, y: Word) => x == y)
  }

  /** Only the last gate has a carry-in. */
  ghost predicate OnlyLast(c: seq<bool>) {
    |c| > 0 && c[|c| - 1] && forall i :: 0 <= i < |c| - 1 ==> !c[i]
  }

  lemma LastCarrySimulates(c: seq<bool>)
    requires OnlyLast(c)
    ensures Simulates(LastCarry(c))
  {
    hide AddCarry, And, Xor, Rotr, Shr;
  }

  ghost function PlainCounting(c: seq<bool>): Sim<nat, Word, seq<bool>, ()> {
    Sim(PlainGates(c), CountGates(), (s, t) => true, (s: nat, t: seq<bool>) => s == |t|, (x, u) => true)
  }

  lemma PlainCountingSimulates(c: seq<bool>)
    ensures Simulates(PlainCounting(c))
  {
    hide AddCarry, And, Xor, Rotr, Shr;
  }

  lemma PlainCount(c: seq<bool>, h: Sha256.Vars<Word>, k: seq<Word>, chunks: seq<seq<Word>>, n: nat)
    requires |k| == 64 && n <= |chunks| && forall i :: 0 <= i < |chunks| ==> |chunks[i]| == 16
    ensures Blocks(PlainGates(c), 0, h, k, chunks, n).0 == GATES_PER_BLOCK * n
  {
    hide Blocks, BlockGates, Repeat, Simulates;
    var m := PlainCounting(c);
    var u := LiftVars(CountGates(), h);
    PlainCountingSimulates(c);
    var units := Units(|chunks|);
    SimulateBlocks(m, 0, [], h, u, k, chunks, units, n);
    CountBlocks([], u, k, units, n);
    BlockGatesLength();
  }

  /** The eight closing additions: the last one differs, all before it agree. */
  lemma LastAddDiffers(c: seq<bool>, s: nat, x: Sha256.Vars<Word>, y: Sha256.Vars<Word>)
    requires OnlyLast(c) && AddVars(PlainGates(c), s, x, y).0 == |c|
    ensures AddVars(PlainGates(c), s, x, y).1.h != AddVars(PlainGates([]), s, x, y).1.h
  {
    hide AddCarry, Add;
    AddCarryDiffers(x.h, y.h);
    AddIsAddCarry(x.h, y.h);
  }

  lemma LastBlockDiffers(c: seq<bool>, s: nat, h: Sha256.Vars<Word>, k: seq<Word>, chunk: seq<Word>)
    requires OnlyLast(c) && |k| == 64 && |chunk| == 16 && Block(PlainGates(c), s, h, k, chunk).0 == |c|
    ensures Block(PlainGates(c), s, h, k, chunk).1 != Block(PlainGates([]), s, h, k, chunk).1
  {
    hide Schedule, Rounds, Simulates, AddVars;
    var m := LastCarry(c);
    LastCarrySimulates(c);
    var w1, w2 := Schedule(m.g1, s, chunk, 64), Schedule(m.g2, s, chunk, 64);
    var r1, r2 := Rounds(m.g1, w1.0, h, k, w1.1, 64), Rounds(m.g2, w2.0, h, k, w2.1, 64);
    assert AddVars(m.g1, r1.0, h, r1.1).0 == r1.0 + 8 by { AddVarsTicks(c, r1.0, h, r1.1); }
    SimulateRounds(m, w1.0, w2.0, h, h, k, w1.1, w2.1, 64);
    SimulateSchedule(m, s, s, chunk, chunk, 64);
    LastAddDiffers(c, r1.0, h, r1.1);
  }

  lemma AddVarsTicks(c: seq<bool>, s: nat, x: Sha256.Vars<Word>, y: Sha256.Vars<Word>)
    ensures AddVars(PlainGates(c), s, x, y).0 == s + 8
  {
    hide AddCarry;
  }

  lemma BlocksDiffer(c: seq<bool>, h: Sha256.Vars<Word>, k: seq<Word>, chunks: seq<seq<Word>>, n: nat)
    requires |k| == 64 && 0 < n <= |chunks| && forall i :: 0 <= i < |chunks| ==> |chunks[i]| == 16
    requires OnlyLast(c) && |c| == GATES_PER_BLOCK * n
    ensures Blocks(PlainGates(c), 0, h, k, chunks, n).1 != Blocks(PlainGates([]), 0, h, k, chunks, n).1
  {
    hide Block, Simulates;
    var m := LastCarry(c);
    LastCarrySimulates(c);
    PlainCount(c, h, k, chunks, n - 1);
    PlainCount(c, h, k, chunks, n);
    SimulateEqual(m, 0, 0, h, k, chunks, n - 1);
    var r := Blocks(PlainGates(c), 0, h, k, chunks, n - 1);
    LastBlockDiffers(c, r.0, r.1, k, chunks[n - 1]);
  }

  /** A carry-in at the last gate alone gives every input a hash that is not its SHA-256. */
  lemma LastCarryMatters(c: seq<bool>, m: seq<Byte>)
    requires OnlyLast(c) && |c| == GATES_PER_BLOCK * NumBlocks(|m|)
    ensures CarryInHash(c, m) != Sha256.Hash(Sha256.BitString(m))
  {
    hide Blocks, Chunks, OnlyLast, Sha256.Hash;
    NoCarryInHash(m);
    BlocksDiffer(c, Sha256.H0, Sha256.K, Chunks(m), NumBlocks(|m|));
  }

  /** Lowest bits that are clear at all n gates but the last, where one party's is set. */
  function OneLow(n: nat): (lows: Lows)
    requires n > 0
    ensures |lows| == n && OnlyLast(CarryIns(lows))
  {
    seq(n, i requires 0 <= i < n => Triple(i == n - 1, false, false))
  }

  /** For every input and every tape some accepted transcript, with a single lowest bit set in all its
      ADD gates, opens to something else than SHA-256 of the input. */
  lemma AcceptedWrong(x: Triple<seq<Byte>>, tapes: Tapes) returns (ys: Tapes, outs: Triple<seq<Word>>)
    requires SameLength(x)
    ensures FullViews(x, ys) && AllAccept(x, tapes, ys, outs) && |outs.p0| == |outs.p1| == |outs.p2|
    ensures OpenWords(outs) != Sha256.WordsOf(Sha256.Hash(Sha256.BitString(XorBytes3(x))))
  {
    hide AllAccept, CarryInHash, OpenWords, XorBytes3, NumBlocks, ProverRun, CarryIns, Sha256.Hash, OneLow, OnlyLast;
    assert NumBlocks(|x.p0|) > 0 by { NumBlocksLeast(|x.p0|, 0); }
    var lows := OneLow(GATES_PER_BLOCK * NumBlocks(|x.p0|));
    ys, outs := RunAcceptedTo(x, tapes, lows);
    var m := XorBytes3(x);
    LastCarryMatters(CarryIns(lows), m);
    WordsDiffer(CarryInHash(CarryIns(lows), m), Sha256.Hash(Sha256.BitString(m)));
  }

  lemma WordsDiffer(v: Sha256.Vars<Word>, u: Sha256.Vars<Word>)
    ensures Sha256.WordsOf(v) == Sha256.WordsOf(u) <==> v == u
  {
    var s, t := Sha256.WordsOf(v), Sha256.WordsOf(u);
    if s == t {
      assert s[0] == t[0] && s[1] == t[1] && s[2] == t[2] && s[3] == t[3];
      assert s[4] == t[4] && s[5] == t[5] && s[6] == t[6] && s[7] == t[7];
    }
  }
}
