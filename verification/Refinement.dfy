/** The shared evaluation opens to the plain one, and the plain one is SHA-256. */
module Refinement {
  import opened Bits
  import opened Shares
  import opened Circuit
  import opened Evaluations
  import opened Padding
  import Sha256

  function CarryIns(lows: Lows): (c: seq<bool>)
    ensures |c| == |lows|
  {
    seq(|lows|, i requires 0 <= i < |lows| => CarryIn(lows[i]))
  }

  /** Opening relates the prover's shares to plain words. */
  ghost function Opening(tapes: Tapes, lows: Lows): Sim<Recorded, Triple<Word>, nat, Word> {
    Sim(ProveGates(tapes, lows), PlainGates(CarryIns(lows)),
        (s, n) => true, (s: Recorded, n: nat) => |s.ys| == n, (x: Triple<Word>, w: Word) => Xor3(x) == w)
  }

  lemma OpeningSimulates(tapes: Tapes, lows: Lows)
    ensures Simulates(Opening(tapes, lows))
  {
    var m := Opening(tapes, lows);
    forall s1, s2, x1, x2, y1, y2
      ensures Step(m, s1, s2, x1, x2, y1, y2, m.g1.add(s1, x1, y1), m.g2.add(s2, x2, y2))
    {
      hide AddCarry, AddCarries, SumShares;
      SumSharesOpen(x1, y1, TapeWords(tapes, |s1.ys|), LowAt(lows, |s1.ys|));
    }
    forall s1, s2, x1, x2, y1, y2
      ensures Step(m, s1, s2, x1, x2, y1, y2, m.g1.and(s1, x1, y1), m.g2.and(s2, x2, y2))
    {
      hide AndShares, And;
      AndSharesOpen(x1, y1, TapeWords(tapes, |s1.ys|));
    }
    forall x, y ensures Xor3(XorShares(x, y)) == Xor(Xor3(x), Xor3(y)) {}
    forall x, n ensures Xor3(RotrShares(x, n)) == Rotr(Xor3(x), n) {}
    forall x, n ensures Xor3(ShrShares(x, n)) == Shr(Xor3(x), n) {}
    forall c: Word ensures Xor3(Triple(c, c, c)) == c {}
  }

  // ----- the plain evaluation is SHA-256

  lemma ChIdentity(e: Word, f: Word, g: Word)
    ensures Xor(And(e, Xor(f, g)), g) == Sha256.Ch(e, f, g)
  {
    var l, r := Xor(And(e, Xor(f, g)), g), Sha256.Ch(e, f, g);
    forall i | 0 <= i < 32 ensures l[i] == r[i] {
      assert l[i] == ((e[i] && (f[i] != g[i])) != g[i]);
      assert r[i] == ((e[i] && f[i]) != (!e[i] && g[i]));
    }
  }

  lemma MajIdentity(a: Word, b: Word, c: Word)
    ensures Xor(And(Xor(a, b), Xor(a, c)), a) == Sha256.Maj(a, b, c)
  {
    var l, r := Xor(And(Xor(a, b), Xor(a, c)), a), Sha256.Maj(a, b, c);
    forall i | 0 <= i < 32 ensures l[i] == r[i] {
      assert l[i] == (((a[i] != b[i]) && (a[i] != c[i])) != a[i]);
      assert r[i] == (((a[i] && b[i]) != (a[i] && c[i])) != (b[i] && c[i]));
    }
  }

  lemma PlainAddIsAdd(n: nat, x: Word, y: Word)
    ensures PlainGates([]).add(n, x, y) == (n + 1, Add(x, y))
  {
    AddIsAddCarry(x, y);
  }

  lemma PlainScheduleWord(n: nat, w16: Word, w15: Word, w7: Word, w2: Word)
    ensures ScheduleWord(PlainGates([]), n, w16, w15, w7, w2).1
         == Add(Add(Add(Sha256.SmallSigma1(w2), w7), Sha256.SmallSigma0(w15)), w16)
  {
    hide AddCarry, Add;
    var s0, s1 := Sha256.SmallSigma0(w15), Sha256.SmallSigma1(w2);
    PlainAddIsAdd(n, w16, s0);
    PlainAddIsAdd(n + 1, w7, Add(w16, s0));
    PlainAddIsAdd(n + 2, Add(w7, Add(w16, s0)), s1);
    AddCommutes(w16, s0);
    AddAssociates(w7, s0, w16);
    AddCommutes(Add(Add(w7, s0), w16), s1);
    AddAssociates(s1, Add(w7, s0), w16);
    AddAssociates(s1, w7, s0);
  }

  lemma {:induction false} PlainSchedule(n: nat, m: seq<Word>, j: nat)
    requires |m| == 16 <= j
    ensures forall t :: 0 <= t < j ==> Schedule(PlainGates([]), n, m, j).1[t] == Sha256.ScheduleWord(m, t)
  {
    hide ScheduleWord;
    if j > 16 {
      PlainSchedule(n, m, j - 1);
      var r := Schedule(PlainGates([]), n, m, j - 1);
      PlainScheduleWord(r.0, r.1[j - 17], r.1[j - 16], r.1[j - 8], r.1[j - 3]);
    }
  }

  lemma PlainRound(n: nat, v: Sha256.Vars<Word>, k: Word, w: Word)
    ensures Round(PlainGates([]), n, v, k, w).1 == Sha256.Round(v, k, w)
  {
    hide AddCarry, Add, And, Xor;
    ChIdentity(v.e, v.f, v.g);
    MajIdentity(v.a, v.b, v.c);
    forall n, x, y ensures PlainGates([]).add(n, x, y) == (n + 1, Add(x, y)) {
      PlainAddIsAdd(n, x, y);
    }
  }

  lemma {:induction false} PlainRounds(n: nat, v: Sha256.Vars<Word>, k: seq<Word>, m: seq<Word>, w: seq<Word>, i: nat)
    requires |m| == 16 && i <= |k| && i <= |w|
    requires forall t :: 0 <= t < |w| ==> w[t] == Sha256.ScheduleWord(m, t)
    ensures Rounds(PlainGates([]), n, v, k, w, i).1 == Sha256.Rounds(v, k, m, i)
  {
    hide Round, Sha256.Round;
    if i > 0 {
      PlainRounds(n, v, k, m, w, i - 1);
      var r := Rounds(PlainGates([]), n, v, k, w, i - 1);
      PlainRound(r.0, r.1, k[i - 1], w[i - 1]);
    }
  }

  lemma PlainAddVars(n: nat, h: Sha256.Vars<Word>, v: Sha256.Vars<Word>)
    ensures AddVars(PlainGates([]), n, h, v).1
         == Sha256.Vars(Add(v.a, h.a), Add(v.b, h.b), Add(v.c, h.c), Add(v.d, h.d),
                        Add(v.e, h.e), Add(v.f, h.f), Add(v.g, h.g), Add(v.h, h.h))
  {
    hide AddCarry, Add;
    forall n, x, y ensures PlainGates([]).add(n, x, y) == (n + 1, Add(y, x)) {
      PlainAddIsAdd(n, x, y);
      AddCommutes(x, y);
    }
  }

  lemma PlainBlock(n: nat, h: Sha256.Vars<Word>, k: seq<Word>, m: seq<Word>)
    requires |m| == 16 && |k| == 64
    ensures Block(PlainGates([]), n, h, k, m).1 == Sha256.Compress(h, k, m)
  {
    hide Add, AddVars, Schedule, Rounds, Sha256.Rounds;
    var ws := Schedule(PlainGates([]), n, m, 64);
    PlainSchedule(n, m, 64);
    PlainRounds(ws.0, h, k, m, ws.1, 64);
    var r := Rounds(PlainGates([]), ws.0, h, k, ws.1, 64);
    PlainAddVars(r.0, h, r.1);
  }

  lemma {:induction false} PlainBlocks(n: nat, h: Sha256.Vars<Word>, k: seq<Word>, blocks: seq<seq<Word>>, i: nat)
    requires i <= |blocks| && |k| == 64 && forall j :: 0 <= j < |blocks| ==> |blocks[j]| == 16
    ensures Blocks(PlainGates([]), n, h, k, blocks, i).1 == Sha256.HashBlocks(h, k, blocks, i)
  {
    hide Block, Sha256.Compress;
    if i > 0 {
      PlainBlocks(n, h, k, blocks, i - 1);
      var r := Blocks(PlainGates([]), n, h, k, blocks, i - 1);
      PlainBlock(r.0, r.1, k, blocks[i - 1]);
    }
  }

  // ----- whole runs

  function OpenVars(v: Sha256.Vars<Triple<Word>>): Sha256.Vars<Word> {
    Sha256.Vars(Xor3(v.a), Xor3(v.b), Xor3(v.c), Xor3(v.d), Xor3(v.e), Xor3(v.f), Xor3(v.g), Xor3(v.h))
  }

  /** The prover's evaluation of all blocks of a shared input. */
  function ProverRun(x: Triple<seq<Byte>>, tapes: Tapes, lows: Lows): (Recorded, Sha256.Vars<Triple<Word>>)
    requires SameLength(x)
  {
    var g := ProveGates(tapes, lows);
    Blocks(g, NOTHING, LiftVars(g, Sha256.H0), Sha256.K, ShareChunks(x), NumBlocks(|x.p0|))
  }

  /** The eight words of party e. */
  function PartyWords(v: Sha256.Vars<Triple<Word>>, e: nat): (w: seq<Word>)
    ensures |w| == 8
  {
    [v.a.At(e), v.b.At(e), v.c.At(e), v.d.At(e), v.e.At(e), v.f.At(e), v.g.At(e), v.h.At(e)]
  }

  function OutputShares(v: Sha256.Vars<Triple<Word>>): Triple<seq<Word>> {
    Triple(PartyWords(v, 0), PartyWords(v, 1), PartyWords(v, 2))
  }

  /** SHA-256 with a carry-in bit added at every ADD gate. */
  function CarryInHash(carryIns: seq<bool>, m: seq<Byte>): Sha256.Vars<Word> {
    Blocks(PlainGates(carryIns), 0, Sha256.H0, Sha256.K, Chunks(m), NumBlocks(|m|)).1
  }

  /** Without carry-ins it is SHA-256. */
  lemma NoCarryInHash(m: seq<Byte>)
    ensures CarryInHash([], m) == Sha256.Hash(Sha256.BitString(m))
  {
    ChunksAreParse(m);
    PlainBlocks(0, Sha256.H0, Sha256.K, Chunks(m), NumBlocks(|m|));
  }

  /** The digest a run with the given lowest carry bits computes of the bytes m. */
  function CarriedSum(lows: Lows, m: seq<Byte>): Sha256.Digest {
    Sha256.DigestBytes(CarryInHash(CarryIns(lows), m))
  }

  lemma NoLowsSum(m: seq<Byte>)
    ensures CarriedSum([], m) == Sha256.Sum(m)
  {
    hide CarryInHash, Sha256.DigestBytes, Sha256.Hash;
    assert CarryIns([]) == [];
    NoCarryInHash(m);
  }

  /** When related values are shares and what they open to, the outputs open likewise. */
  lemma SimulateOpening<S1(!new), S2(!new)>(
    m: Sim<S1, Triple<Word>, S2, Word>, s1: S1, s2: S2, h1: Sha256.Vars<Triple<Word>>, h2: Sha256.Vars<Word>,
    k: seq<Word>, x: Triple<seq<Byte>>)
    requires Simulates(m) && |k| == 64 && SameLength(x)
    requires forall t, w {:trigger m.values(t, w)} :: m.values(t, w) <==> Xor3(t) == w
    requires m.states(s1, s2) && OpenVars(h1) == h2
    ensures var n := NumBlocks(|x.p0|);
      var r1, r2 := Blocks(m.g1, s1, h1, k, ShareChunks(x), n), Blocks(m.g2, s2, h2, k, Chunks(XorBytes3(x)), n);
      m.good(r1.0, r2.0) ==> OpenVars(r1.1) == r2.1
  {
    hide Blocks, Simulates, ShareChunks, Chunks, XorBytes3, NumBlocks;
    var c, d, n := ShareChunks(x), Chunks(XorBytes3(x)), NumBlocks(|x.p0|);
    forall i, j | 0 <= i < |c| && 0 <= j < 16 ensures m.values(c[i][j], d[i][j]) {
      PaddedSharesOpen(x, i, j);
    }
    if m.good(Blocks(m.g1, s1, h1, k, c, n).0, Blocks(m.g2, s2, h2, k, d, n).0) {
      SimulateBlocks(m, s1, s2, h1, h2, k, c, d, n);
    }
  }

  lemma LiftOpens(tapes: Tapes, lows: Lows)
    ensures OpenVars(LiftVars(ProveGates(tapes, lows), Sha256.H0)) == Sha256.H0
  {
    forall c: Word ensures Xor3(Triple(c, c, c)) == c {}
  }

  /** For every input length, all shares, tapes and low carry bits, the prover's output shares open
      to the hash of the opened input with the opened carry-ins. */
  lemma ProverOpens(x: Triple<seq<Byte>>, tapes: Tapes, lows: Lows)
    requires SameLength(x)
    ensures OpenVars(ProverRun(x, tapes, lows).1) == CarryInHash(CarryIns(lows), XorBytes3(x))
  {
    hide Blocks, ShareChunks, Chunks, XorBytes3, NumBlocks, LiftVars, Simulates, OpenVars;
    var m := Opening(tapes, lows);
    OpeningSimulates(tapes, lows);
    LiftOpens(tapes, lows);
    SimulateOpening(m, NOTHING, 0, LiftVars(m.g1, Sha256.H0), Sha256.H0, Sha256.K, x);
  }

  /** The prover of the source computes SHA-256. */
  lemma ProverRefinesSha256(x: Triple<seq<Byte>>, tapes: Tapes)
    requires SameLength(x)
    ensures OpenVars(ProverRun(x, tapes, []).1) == Sha256.Hash(Sha256.BitString(XorBytes3(x)))
  {
    ProverOpens(x, tapes, []);
    NoCarryInHash(XorBytes3(x));
    assert CarryIns([]) == [];
  }
}
