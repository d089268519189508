/** How many gates the circuit makes and of which kind, for every evaluation of it. */
module Budget {
  import opened Bits
  import opened Shares
  import opened Circuit
  import opened Evaluations
  import opened Padding
  import opened Refinement
  import Sha256

  const GATES_PER_BLOCK: nat := 728

  function Repeat<T>(s: seq<T>, n: nat): (r: seq<T>)
    ensures |r| == n * |s|
  {
    if n == 0 then [] else Repeat(s, n - 1) + s
  }

  lemma RepeatNext<T>(p: seq<T>, s: seq<T>, n: nat)
    requires n > 0
    ensures p + Repeat(s, n) == p + Repeat(s, n - 1) + s
  {}

  /** true for an ADD gate, false for an AND gate. */
  const ROUND_GATES: seq<bool> := [true, false, true, true, true, false, true, true, true]
  const SCHEDULE_GATES: seq<bool> := [true, true, true]
  const CHAIN_GATES: seq<bool> := [true, true, true, true, true, true, true, true]

  function BlockGates(): seq<bool> { Repeat(SCHEDULE_GATES, 48) + Repeat(ROUND_GATES, 64) + CHAIN_GATES }

  /** An evaluation that only writes down the kind of each gate. */
  function CountGates(): Gates<seq<bool>, ()> {
    Gates((s: seq<bool>, x: (), y: ()) => (s + [true], ()),
          (s: seq<bool>, x: (), y: ()) => (s + [false], ()),
          (x: (), y: ()) => (), (x: (), n: nat) => (), (x: (), n: nat) => (), (c: Word) => ())
  }

  lemma CountScheduleWord(s: seq<bool>, a: (), b: (), c: (), d: ())
    ensures ScheduleWord(CountGates(), s, a, b, c, d).0 == s + SCHEDULE_GATES
  {}

  lemma CountRound(s: seq<bool>, v: Sha256.Vars<()>, k: Word, w: ())
    ensures Round(CountGates(), s, v, k, w).0 == s + ROUND_GATES
  {}

  lemma CountAddVars(s: seq<bool>, x: Sha256.Vars<()>, y: Sha256.Vars<()>)
    ensures AddVars(CountGates(), s, x, y).0 == s + CHAIN_GATES
  {}

  lemma {:induction false} CountSchedule(s: seq<bool>, c: seq<()>, n: nat)
    requires |c| == 16 <= n
    ensures Schedule(CountGates(), s, c, n).0 == s + Repeat(SCHEDULE_GATES, n - 16)
  {
    hide ScheduleWord;
    if n == 16 {
      assert s + Repeat(SCHEDULE_GATES, 0) == s;
    } else {
      CountSchedule(s, c, n - 1);
      var r := Schedule(CountGates(), s, c, n - 1);
      CountScheduleWord(r.0, r.1[n - 17], r.1[n - 16], r.1[n - 8], r.1[n - 3]);
      RepeatNext(s, SCHEDULE_GATES, n - 16);
    }
  }

  lemma {:induction false} CountRounds(s: seq<bool>, v: Sha256.Vars<()>, k: seq<Word>, w: seq<()>, n: nat)
    requires n <= |k| && n <= |w|
    ensures Rounds(CountGates(), s, v, k, w, n).0 == s + Repeat(ROUND_GATES, n)
  {
    hide Round;
    if n == 0 {
      assert s + Repeat(ROUND_GATES, 0) == s;
    } else {
      RepeatNext(s, ROUND_GATES, n);
      CountRounds(s, v, k, w, n - 1);
      var r := Rounds(CountGates(), s, v, k, w, n - 1);
      CountRound(r.0, r.1, k[n - 1], w[n - 1]);
    }
  }

  lemma CountBlock(s: seq<bool>, h: Sha256.Vars<()>, k: seq<Word>, c: seq<()>)
    requires |c| == 16 && |k| == 64
    ensures Block(CountGates(), s, h, k, c).0 == s + BlockGates()
  {
    var ws := Schedule(CountGates(), s, c, 64);
    CountSchedule(s, c, 64);
    var r := Rounds(CountGates(), ws.0, h, k, ws.1, 64);
    CountRounds(ws.0, h, k, ws.1, 64);
    CountAddVars(r.0, h, r.1);
    hide AddVars, Repeat;
    assert s + BlockGates() == s + Repeat(SCHEDULE_GATES, 48) + Repeat(ROUND_GATES, 64) + CHAIN_GATES;
  }

  lemma {:induction false} CountBlocks(s: seq<bool>, h: Sha256.Vars<()>, k: seq<Word>, c: seq<seq<()>>, n: nat)
    requires n <= |c| && |k| == 64 && forall i :: 0 <= i < |c| ==> |c[i]| == 16
    ensures Blocks(CountGates(), s, h, k, c, n).0 == s + Repeat(BlockGates(), n)
  {
    hide Block, BlockGates;
    if n == 0 {
      assert s + Repeat(BlockGates(), 0) == s;
    } else {
      RepeatNext(s, BlockGates(), n);
      CountBlocks(s, h, k, c, n - 1);
      var r := Blocks(CountGates(), s, h, k, c, n - 1);
      CountBlock(r.0, r.1, k, c[n - 1]);
    }
  }

  lemma BlockGatesLength()
    ensures |BlockGates()| == GATES_PER_BLOCK
  {
    hide Repeat;
  }

  /** How many gates are ADD gates. */
  function Adds(s: seq<bool>): nat {
    if s == [] then 0 else Adds(s[..|s| - 1]) + BitVal(s[|s| - 1])
  }

  lemma {:induction false} AddsAppend(s: seq<bool>, t: seq<bool>)
    ensures Adds(s + t) == Adds(s) + Adds(t)
  {
    if t == [] {
      assert s + t == s;
    } else {
      var n := |t| - 1;
      AddsAppend(s, t[..n]);
      assert (s + t)[..|s| + n] == s + t[..n];
    }
  }

  lemma {:induction false} AddsRepeat(s: seq<bool>, n: nat)
    ensures Adds(Repeat(s, n)) == n * Adds(s)
  {
    hide Adds;
    if n == 0 {
      var none := Repeat(s, 0);
      assert none + none == none;
      AddsAppend(none, none);
    } else {
      AddsRepeat(s, n - 1);
      AddsAppend(Repeat(s, n - 1), s);
      assert n * Adds(s) == (n - 1) * Adds(s) + Adds(s);
    }
  }

  lemma AddsThree(a: bool, b: bool, c: bool)
    ensures Adds([a, b, c]) == BitVal(a) + BitVal(b) + BitVal(c)
    ensures Adds([a, b]) == BitVal(a) + BitVal(b)
  {
    assert [a][..0] == [] && [a, b][..1] == [a] && [a, b, c][..2] == [a, b];
    assert Adds([a]) == BitVal(a);
    assert Adds([a, b]) == BitVal(a) + BitVal(b);
  }

  lemma PatternAdds()
    ensures Adds(SCHEDULE_GATES) == 3 && Adds(ROUND_GATES) == 7 && Adds(CHAIN_GATES) == 8
  {
    hide Adds;
    AddsThree(true, true, true);
    AddsThree(true, false, true);
    AddsThree(false, true, true);
    AddsThree(true, true, false);
    AddsAppend([true, false, true], [true, true, false]);
    AddsAppend([true, false, true] + [true, true, false], [true, true, true]);
    assert ROUND_GATES == [true, false, true] + [true, true, false] + [true, true, true];
    AddsAppend([true, true, true], [true, true, true]);
    AddsAppend([true, true, true] + [true, true, true], [true, true]);
    assert CHAIN_GATES == [true, true, true] + [true, true, true] + [true, true];
  }

  /** Of the 728 gates of a block 600 are ADD gates, so 128 are AND gates. */
  lemma BlockAdds()
    ensures Adds(BlockGates()) == 600
  {
    hide Adds, Repeat;
    PatternAdds();
    AddsRepeat(SCHEDULE_GATES, 48);
    AddsRepeat(ROUND_GATES, 64);
    AddsAppend(Repeat(SCHEDULE_GATES, 48), Repeat(ROUND_GATES, 64));
    AddsAppend(Repeat(SCHEDULE_GATES, 48) + Repeat(ROUND_GATES, 64), CHAIN_GATES);
  }

  /** Whether gate i of a run is an ADD gate. */
  predicate IsAddGate(i: nat) {
    BlockGatesLength();
    BlockGates()[i % GATES_PER_BLOCK]
  }

  lemma {:induction false} RepeatBlock(s: seq<bool>, n: nat, i: nat)
    requires |s| == GATES_PER_BLOCK && i < n * GATES_PER_BLOCK
    ensures Repeat(s, n)[i] == s[i % GATES_PER_BLOCK]
  {
    if i < (n - 1) * GATES_PER_BLOCK {
      RepeatBlock(s, n - 1, i);
    } else {
      assert i % GATES_PER_BLOCK == i - (n - 1) * GATES_PER_BLOCK;
    }
  }

  lemma {:induction false} KindAt(n: nat, i: nat)
    requires i < n * GATES_PER_BLOCK
    ensures |Repeat(BlockGates(), n)| == n * GATES_PER_BLOCK
    ensures Repeat(BlockGates(), n)[i] == IsAddGate(i)
  {
    hide BlockGates, Repeat;
    BlockGatesLength();
    RepeatBlock(BlockGates(), n, i);
  }

  // ----- every run has this budget

  ghost function Counting(tapes: Tapes, lows: Lows): Sim<Recorded, Triple<Word>, seq<bool>, ()> {
    Sim(ProveGates(tapes, lows), CountGates(), (p, s) => true,
        (p: Recorded, s: seq<bool>) => p.adds == s && |p.ys| == |s|, (x, u) => true)
  }

  lemma CountingSimulates(tapes: Tapes, lows: Lows)
    ensures Simulates(Counting(tapes, lows))
  {
    hide AddCarries, SumShares, AndShares, XorShares, RotrShares, ShrShares;
  }

  function Units(c: nat): (u: seq<seq<()>>)
    ensures |u| == c && forall i :: 0 <= i < c ==> |u[i]| == 16
  {
    seq(c, _ => seq(16, _ => ()))
  }

  lemma BlocksKinds(tapes: Tapes, lows: Lows, h: Sha256.Vars<Triple<Word>>, k: seq<Word>, c: seq<seq<Triple<Word>>>,
                    n: nat)
    requires |k| == 64 && n <= |c| && forall i :: 0 <= i < |c| ==> |c[i]| == 16
    ensures Blocks(ProveGates(tapes, lows), NOTHING, h, k, c, n).0.adds == Repeat(BlockGates(), n)
    ensures |Blocks(ProveGates(tapes, lows), NOTHING, h, k, c, n).0.ys| == |Repeat(BlockGates(), n)|
  {
    hide Blocks, BlockGates, Repeat, Simulates;
    var m := Counting(tapes, lows);
    CountingSimulates(tapes, lows);
    var u := LiftVars(CountGates(), Sha256.Vars(ZERO, ZERO, ZERO, ZERO, ZERO, ZERO, ZERO, ZERO));
    SimulateBlocks(m, NOTHING, [], h, u, k, c, Units(|c|), n);
    CountBlocks([], u, k, Units(|c|), n);
    assert [] + Repeat(BlockGates(), n) == Repeat(BlockGates(), n);
  }

  lemma RunKinds(x: Triple<seq<Byte>>, tapes: Tapes, lows: Lows)
    requires SameLength(x)
    ensures ProverRun(x, tapes, lows).0.adds == Repeat(BlockGates(), NumBlocks(|x.p0|))
    ensures |ProverRun(x, tapes, lows).0.ys| == |ProverRun(x, tapes, lows).0.adds|
  {
    hide Blocks, ShareChunks, BlockGates, Repeat, NumBlocks, LiftVars, ProveGates;
    var h := LiftVars(ProveGates(tapes, lows), Sha256.H0);
    BlocksKinds(tapes, lows, h, Sha256.K, ShareChunks(x), NumBlocks(|x.p0|));
  }

  /** A prover run over n blocks makes exactly 728 * n gates, of the kinds the circuit fixes, 600 * n
      of them ADD gates, and records one word per gate and party. */
  lemma ProverBudget(x: Triple<seq<Byte>>, tapes: Tapes, lows: Lows)
    requires SameLength(x)
    ensures var s, n := ProverRun(x, tapes, lows).0, GATES_PER_BLOCK * NumBlocks(|x.p0|);
      |s.ys| == |s.adds| == n && forall i :: 0 <= i < n ==> s.adds[i] == IsAddGate(i)
    ensures Adds(ProverRun(x, tapes, lows).0.adds) == 600 * NumBlocks(|x.p0|)
  {
    hide ProverRun, BlockGates, Repeat, IsAddGate, NumBlocks, Adds;
    RunKinds(x, tapes, lows);
    var n := NumBlocks(|x.p0|);
    BlockGatesLength();
    forall i | 0 <= i < GATES_PER_BLOCK * n
      ensures |Repeat(BlockGates(), n)| == GATES_PER_BLOCK * n && Repeat(BlockGates(), n)[i] == IsAddGate(i)
    {
      KindAt(n, i);
    }
    AddsRepeat(BlockGates(), n);
    BlockAdds();
  }
}
