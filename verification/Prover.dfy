/** The prover: the gates, the rounds and the chained blocks of mpc_sha256_prove, on three shares. */
module Prover {
  import opened Bits
  import opened Shares
  import opened Circuit
  import opened Evaluations
  import opened Padding
  import opened Memory
  import opened Refinement
  import opened Budget
  import Sha256

  /** One party's view: its input share, its message share and one recorded word per gate. */
  class View {
    var x: RVec
    var msg: seq<Byte>
    const y: array<Word>

    constructor (ySize: nat)
      ensures fresh(this) && fresh(y) && y.Length == ySize
    {
      x, msg := [], [];
      y := new Word[ySize](_ => ZERO);
    }
  }

  function WordAt(t: seq<Byte>, i: nat): Word
    requires i + 4 <= |t|
  {
    LoadLE(t[i..i + 4])
  }

  lemma WordAtTape(t: seq<Byte>, i: nat)
    requires 4 * i + 4 <= |t|
    ensures WordAt(t, 4 * i) == TapeWord(TapeOf(t), i)
  {}

  function TapesOf(t: Triple<seq<Byte>>): Tapes { Triple(TapeOf(t.p0), TapeOf(t.p1), TapeOf(t.p2)) }

  /** The counters, tapes and view buffers that every gate call of the prover shares. */
  class Machine {
    const tapes: Triple<seq<Byte>>
    const y0: array<Word>
    const y1: array<Word>
    const y2: array<Word>
    var randCount: nat
    var countY: nat
    ghost var log: Recorded

    /** Counters in lockstep, and the buffers hold what was recorded so far. */
    ghost predicate Valid()
      reads this, y0, y1, y2
    {
      && y0 != y1 && y1 != y2 && y0 != y2
      && y0.Length == y1.Length == y2.Length
      && 4 * y0.Length <= |tapes.p0| == |tapes.p1| == |tapes.p2|
      && countY == |log.ys| == |log.adds| <= y0.Length
      && randCount == 4 * countY
      && forall i :: 0 <= i < countY ==> Triple(y0[i], y1[i], y2[i]) == log.ys[i]
    }

    constructor (tapes: Triple<seq<Byte>>, y0: array<Word>, y1: array<Word>, y2: array<Word>)
      requires y0 != y1 && y1 != y2 && y0 != y2
      requires y0.Length == y1.Length == y2.Length
      requires 4 * y0.Length <= |tapes.p0| == |tapes.p1| == |tapes.p2|
      ensures Valid() && log == NOTHING && countY == 0
      ensures this.tapes == tapes && this.y0 == y0 && this.y1 == y1 && this.y2 == y2
    {
      this.tapes, this.y0, this.y1, this.y2 := tapes, y0, y1, y2;
      randCount, countY, log := 0, 0, NOTHING;
    }

    /** One tape word per party; the source advances randCount by four bytes. */
    method NextRandom() returns (r: Triple<Word>)
      requires Valid() && countY < y0.Length
      modifies this`randCount
      ensures r == TapeWords(TapesOf(tapes), countY)
      ensures randCount == old(randCount) + 4
    {
      WordAtTape(tapes.p0, countY);
      WordAtTape(tapes.p1, countY);
      WordAtTape(tapes.p2, countY);
      r := Triple(WordAt(tapes.p0, randCount), WordAt(tapes.p1, randCount), WordAt(tapes.p2, randCount));
      randCount := randCount + 4;
    }

    /** Append one word to each view. */
    method Record(c: Triple<Word>, ghost isAdd: bool)
      requires y0 != y1 && y1 != y2 && y0 != y2
      requires y0.Length == y1.Length == y2.Length
      requires countY == |log.ys| == |log.adds| < y0.Length
      requires forall i :: 0 <= i < countY ==> Triple(y0[i], y1[i], y2[i]) == log.ys[i]
      modifies this`countY, this`log, y0, y1, y2
      ensures countY == old(countY) + 1
      ensures log == Recorded(old(log).ys + [c], old(log).adds + [isAdd])
      ensures forall i :: 0 <= i < countY ==> Triple(y0[i], y1[i], y2[i]) == log.ys[i]
    {
      y0[countY], y1[countY], y2[countY] := c.p0, c.p1, c.p2;
      countY := countY + 1;
      log := Recorded(log.ys + [c], log.adds + [isAdd]);
    }

    /** mpc_ADD: a ripple over the low 31 carry bits of each share. */
    method Add(x: Triple<Word>, y: Triple<Word>) returns (z: Triple<Word>)
      requires Valid() && countY < y0.Length
      modifies this, y0, y1, y2
      ensures Valid() && countY == old(countY) + 1
      ensures log == ProveAdd(TapesOf(tapes), [], old(log), x, y).0
      ensures z == ProveAdd(TapesOf(tapes), [], old(log), x, y).1
    {
      hide TapesOf, TapeWords;
      var r := NextRandom();
      var c := RippleCarries(x, y, r);
      z := Triple(Xor(Xor(x.p0, y.p0), c.p0), Xor(Xor(x.p1, y.p1), c.p1), Xor(Xor(x.p2, y.p2), c.p2));
      Record(c, true);
    }

    /** mpc_AND. */
    method And(x: Triple<Word>, y: Triple<Word>) returns (z: Triple<Word>)
      requires Valid() && countY < y0.Length
      modifies this, y0, y1, y2
      ensures Valid() && countY == old(countY) + 1
      ensures log == ProveAnd(TapesOf(tapes), old(log), x, y).0
      ensures z == ProveAnd(TapesOf(tapes), old(log), x, y).1
    {
      hide TapesOf, TapeWords, AndShare;
      var r := NextRandom();
      z := Triple(AndShare(Pair(x.p0, x.p1), Pair(y.p0, y.p1), Pair(r.p0, r.p1)),
                  AndShare(Pair(x.p1, x.p2), Pair(y.p1, y.p2), Pair(r.p1, r.p2)),
                  AndShare(Pair(x.p2, x.p0), Pair(y.p2, y.p0), Pair(r.p2, r.p0)));
      Record(z, false);
    }

    /** mpc_CH: e & (f ^ g) ^ g. */
    method Ch(e: Triple<Word>, f: Triple<Word>, g: Triple<Word>) returns (z: Triple<Word>)
      requires Valid() && countY < y0.Length
      modifies this, y0, y1, y2
      ensures Valid() && countY == old(countY) + 1
      ensures log == ProveAnd(TapesOf(tapes), old(log), e, XorShares(f, g)).0
      ensures z == XorShares(ProveAnd(TapesOf(tapes), old(log), e, XorShares(f, g)).1, g)
    {
      var t0 := XorShares(f, g);
      t0 := And(e, t0);
      z := XorShares(t0, g);
    }

    /** mpc_MAJ: (a ^ b) & (a ^ c) ^ a. */
    method Maj(a: Triple<Word>, b: Triple<Word>, c: Triple<Word>) returns (z: Triple<Word>)
      requires Valid() && countY < y0.Length
      modifies this, y0, y1, y2
      ensures Valid() && countY == old(countY) + 1
      ensures log == ProveAnd(TapesOf(tapes), old(log), XorShares(a, b), XorShares(a, c)).0
      ensures z == XorShares(ProveAnd(TapesOf(tapes), old(log), XorShares(a, b), XorShares(a, c)).1, a)
    {
      var t0 := XorShares(a, b);
      var t1 := XorShares(a, c);
      z := And(t0, t1);
      z := XorShares(z, a);
    }

    /** mpc_ADDK_impl: the constant is given to all three parties. */
    method AddConstant(x: Triple<Word>, k: Word) returns (z: Triple<Word>)
      requires Valid() && countY < y0.Length
      modifies this, y0, y1, y2
      ensures Valid() && countY == old(countY) + 1
      ensures log == ProveAdd(TapesOf(tapes), [], old(log), x, Triple(k, k, k)).0
      ensures z == ProveAdd(TapesOf(tapes), [], old(log), x, Triple(k, k, k)).1
    {
      z := Add(x, Triple(k, k, k));
    }
  }

  /** mpc_ADD as the source calls it, on three-word buffers: z may be x or y, or both. */
  method AddInto(m: Machine, x: array<Word>, y: array<Word>, z: array<Word>)
    requires m.Valid() && m.countY < m.y0.Length
    requires x.Length == y.Length == z.Length == 3
    requires z != m.y0 && z != m.y1 && z != m.y2
    modifies m, m.y0, m.y1, m.y2, z
    ensures m.Valid() && m.countY == old(m.countY) + 1
    ensures m.log == ProveAdd(TapesOf(m.tapes), [], old(m.log), old(Buffer(x)), old(Buffer(y))).0
    ensures Buffer(z) == ProveAdd(TapesOf(m.tapes), [], old(m.log), old(Buffer(x)), old(Buffer(y))).1
  {
    hide TapesOf, TapeWords, AddCarries;
    var r := m.NextRandom();
    var c := RippleCarries(Buffer(x), Buffer(y), r);
    z[0] := Xor(Xor(x[0], y[0]), c.p0);
    z[1] := Xor(Xor(x[1], y[1]), c.p1);
    z[2] := Xor(Xor(x[2], y[2]), c.p2);
    m.Record(c, true);
  }

  /** mpc_AND on three-word buffers: z may be x or y, or both. */
  method AndInto(m: Machine, x: array<Word>, y: array<Word>, z: array<Word>)
    requires m.Valid() && m.countY < m.y0.Length
    requires x.Length == y.Length == z.Length == 3
    requires z != m.y0 && z != m.y1 && z != m.y2
    modifies m, m.y0, m.y1, m.y2, z
    ensures m.Valid() && m.countY == old(m.countY) + 1
    ensures m.log == ProveAnd(TapesOf(m.tapes), old(m.log), old(Buffer(x)), old(Buffer(y))).0
    ensures Buffer(z) == ProveAnd(TapesOf(m.tapes), old(m.log), old(Buffer(x)), old(Buffer(y))).1
  {
    hide TapesOf, TapeWords;
    var t := m.And(Buffer(x), Buffer(y));
    z[0], z[1], z[2] := t.p0, t.p1, t.p2;
  }

  function Buffer(a: array<Word>): Triple<Word>
    requires a.Length == 3
    reads a
  {
    Triple(a[0], a[1], a[2])
  }

  /** One step of the loop of mpc_ADD, on bits. */
  function RippleStep(x: Triple<bool>, y: Triple<bool>, r: Triple<bool>, c: Triple<bool>): Triple<bool> {
    var a, b := XorBools(x, c), XorBools(y, c);
    Triple((((((a.p0 && b.p1) != (a.p1 && b.p0)) != r.p1) != (a.p0 && b.p0)) != c.p0) != r.p0,
           (((((a.p1 && b.p2) != (a.p2 && b.p1)) != r.p2) != (a.p1 && b.p1)) != c.p1) != r.p1,
           (((((a.p2 && b.p0) != (a.p0 && b.p2)) != r.p0) != (a.p2 && b.p2)) != c.p2) != r.p2)
  }

  lemma RippleStepIsNext(x: Triple<bool>, y: Triple<bool>, r: Triple<bool>, c: Triple<bool>)
    ensures RippleStep(x, y, r, c) == NextCarries(x, y, r, c)
  {
    hide NextCarry, XorBools;
    NextCarryAt(x, y, r, c, 0);
    NextCarryAt(x, y, r, c, 1);
    NextCarryAt(x, y, r, c, 2);
  }

  lemma CarriesFromBits(x: Triple<Word>, y: Triple<Word>, r: Triple<Word>, c: Triple<Word>)
    requires forall j :: 0 <= j < 32 ==> TripleBit(c, j) == CarryAt(x, y, r, NO_CARRY, j)
    ensures c == AddCarries(x, y, r, NO_CARRY)
  {
    hide CarryAt;
    var d := AddCarries(x, y, r, NO_CARRY);
    forall j | 0 <= j < 32 ensures c.p0[j] == d.p0[j] && c.p1[j] == d.p1[j] && c.p2[j] == d.p2[j] {
      assert TripleBit(c, j) == TripleBit(d, j);
    }
    assert c.p0 == d.p0 && c.p1 == d.p1 && c.p2 == d.p2;
  }

  /** The loop of mpc_ADD: 31 steps, each setting the next carry bit of each share. */
  method RippleCarries(x: Triple<Word>, y: Triple<Word>, r: Triple<Word>) returns (c: Triple<Word>)
    ensures c == AddCarries(x, y, r, NO_CARRY)
  {
    hide NextCarries, RippleStep, AddCarries;
    var c0: Word, c1: Word, c2: Word := ZERO, ZERO, ZERO;
    var i := 0;
    while i < 31
      invariant 0 <= i <= 31
      invariant forall j :: 0 <= j <= i ==> TripleBit(Triple(c0, c1, c2), j) == CarryAt(x, y, r, NO_CARRY, j)
    {
      ghost var before := Triple(c0, c1, c2);
      RippleStepIsNext(TripleBit(x, i), TripleBit(y, i), TripleBit(r, i), TripleBit(before, i));
      var next := RippleStep(TripleBit(x, i), TripleBit(y, i), TripleBit(r, i), Triple(c0[i], c1[i], c2[i]));
      c0, c1, c2 := c0[i + 1 := next.p0], c1[i + 1 := next.p1], c2[i + 1 := next.p2];
      forall j | 0 <= j <= i + 1
        ensures TripleBit(Triple(c0, c1, c2), j) == CarryAt(x, y, r, NO_CARRY, j)
      {
        assert j <= i ==> TripleBit(Triple(c0, c1, c2), j) == TripleBit(before, j);
      }
      i := i + 1;
    }
    c := Triple(c0, c1, c2);
    CarriesFromBits(x, y, r, c);
  }

  // ----- padding and loading

  /** memcpy. */
  method CopyInto(p: array<Byte>, o: nat, src: seq<Byte>)
    requires o + |src| <= p.Length
    modifies p
    ensures p[..] == old(p[..o]) + src + old(p[o + |src|..])
  {
    var i := 0;
    while i < |src|
      invariant 0 <= i <= |src|
      invariant forall j :: 0 <= j < i ==> p[o + j] == src[j]
      invariant forall j :: 0 <= j < p.Length && !(o <= j < o + i) ==> p[j] == old(p[j])
    {
      p[o + i] := src[i];
      i := i + 1;
    }
  }

  function LengthBytes(bits: nat): (b: seq<Byte>)
    ensures |b| == 8
  {
    seq(8, i requires 0 <= i < 8 => LengthByte(bits, i))
  }

  lemma PadByParts(src: seq<Byte>, z: nat)
    requires |src| + 1 + z + 8 == 64 * NumBlocks(|src|)
    ensures src + [END_BYTE] + seq(z, _ => ZERO_BYTE) + LengthBytes(8 * |src|) == PadBytes(src)
  {
    hide LengthByte;
  }

  /** calloc, memcpy, the end byte and the length of one share. */
  method PadShare(src: seq<Byte>) returns (p: array<Byte>)
    ensures fresh(p) && p[..] == PadBytes(src)
  {
    hide LengthBytes, PadBytes;
    var n := 64 * NumBlocks(|src|);
    NumBlocksLeast(|src|, NumBlocks(|src|));
    p := new Byte[n](_ => ZERO_BYTE);
    CopyInto(p, 0, src);
    p[|src|] := END_BYTE;
    ghost var z := n - 9 - |src|;
    assert p[..n - 8] == src + [END_BYTE] + seq(z, _ => ZERO_BYTE);
    CopyInto(p, n - 8, LengthBytes(8 * |src|));
    PadByParts(src, z);
  }

  /** The three share words at offset o of the padded shares. */
  function LoadShares(p: Triple<seq<Byte>>, o: nat): Triple<Word>
    requires o + 4 <= |p.p0| == |p.p1| == |p.p2|
  {
    Triple(Sha256.LoadBE(p.p0[o..o + 4]), Sha256.LoadBE(p.p1[o..o + 4]), Sha256.LoadBE(p.p2[o..o + 4]))
  }

  lemma LoadedChunk(x: Triple<seq<Byte>>, blk: nat, j: nat)
    requires SameLength(x) && blk < NumBlocks(|x.p0|) && j < 16
    ensures 64 * blk + 4 * j + 4 <= 64 * NumBlocks(|x.p0|)
    ensures LoadShares(Triple(PadBytes(x.p0), PadBytes(x.p1), PadBytes(x.p2)), 64 * blk + 4 * j)
        == ShareChunks(x)[blk][j]
  {
    hide PadByte, Sha256.LoadBE;
  }

  // ----- the circuit

  /** The message schedule loop: words 16 to 63 of w. */
  method ExpandSchedule(m: Machine, w: array<Triple<Word>>, ghost chunk: seq<Triple<Word>>)
    requires m.Valid() && m.countY + 144 <= m.y0.Length && w.Length == 64
    requires |chunk| == 16 && w[..16] == chunk
    modifies m, m.y0, m.y1, m.y2, w
    ensures m.Valid() && m.countY == old(m.countY) + 144
    ensures m.log == Schedule(ProveGates(TapesOf(m.tapes), []), old(m.log), chunk, 64).0
    ensures w[..] == Schedule(ProveGates(TapesOf(m.tapes), []), old(m.log), chunk, 64).1
  {
    hide ScheduleWord, ProveGates, TapesOf;
    ghost var g := ProveGates(TapesOf(m.tapes), []);
    ghost var start := m.log;
    var j := 16;
    while j < 64
      invariant 16 <= j <= 64
      invariant m.Valid() && m.countY == old(m.countY) + 3 * (j - 16)
      invariant m.log == Schedule(g, start, chunk, j).0
      invariant w[..j] == Schedule(g, start, chunk, j).1
    {
      ghost var before := w[..j];
      ghost var log := m.log;
      assert w[j - 15] == before[j - 15] && w[j - 2] == before[j - 2] && w[j - 16] == before[j - 16];
      assert w[j - 7] == before[j - 7];
      var next := ScheduleStep(m, w[j - 16], w[j - 15], w[j - 7], w[j - 2]);
      w[j] := next;
      assert w[..j + 1] == before + [next];
      assert Schedule(g, start, chunk, j + 1).1 == before + [next];
      j := j + 1;
    }
    assert w[..] == w[..64];
  }

  /** The body of the schedule loop. */
  method ScheduleStep(m: Machine, w16: Triple<Word>, w15: Triple<Word>, w7: Triple<Word>, w2: Triple<Word>)
    returns (z: Triple<Word>)
    requires m.Valid() && m.countY + 3 <= m.y0.Length
    modifies m, m.y0, m.y1, m.y2
    ensures m.Valid() && m.countY == old(m.countY) + 3
    ensures m.log == ScheduleWord(ProveGates(TapesOf(m.tapes), []), old(m.log), w16, w15, w7, w2).0
    ensures z == ScheduleWord(ProveGates(TapesOf(m.tapes), []), old(m.log), w16, w15, w7, w2).1
  {
    hide ProveAdd, XorShares, RotrShares, ShrShares, TapesOf;
    var t0 := RotrShares(w15, 7);
    var t1 := RotrShares(w15, 18);
    t0 := XorShares(t0, t1);
    t1 := ShrShares(w15, 3);
    var s0 := XorShares(t0, t1);
    t0 := RotrShares(w2, 17);
    t1 := RotrShares(w2, 19);
    t0 := XorShares(t0, t1);
    t1 := ShrShares(w2, 10);
    var s1 := XorShares(t0, t1);
    t1 := m.Add(w16, s0);
    t1 := m.Add(w7, t1);
    z := m.Add(t1, s1);
  }

  /** The body of the round loop. */
  method RoundStep(m: Machine, v: Sha256.Vars<Triple<Word>>, k: Word, w: Triple<Word>)
    returns (u: Sha256.Vars<Triple<Word>>)
    requires m.Valid() && m.countY + 9 <= m.y0.Length
    modifies m, m.y0, m.y1, m.y2
    ensures m.Valid() && m.countY == old(m.countY) + 9
    ensures m.log == Round(ProveGates(TapesOf(m.tapes), []), old(m.log), v, k, w).0
    ensures u == Round(ProveGates(TapesOf(m.tapes), []), old(m.log), v, k, w).1
  {
    hide ProveAdd, ProveAnd, XorShares, RotrShares, TapesOf;
    var a, b, c, d, e, f, g, h := v.a, v.b, v.c, v.d, v.e, v.f, v.g, v.h;
    var t0 := RotrShares(e, 6);
    var t1 := RotrShares(e, 11);
    t0 := XorShares(t0, t1);
    t1 := RotrShares(e, 25);
    var s1 := XorShares(t0, t1);
    t0 := m.Add(h, s1);
    t1 := m.Ch(e, f, g);
    t1 := m.Add(t0, t1);
    t1 := m.AddConstant(t1, k);
    var temp1 := m.Add(t1, w);
    t0 := RotrShares(a, 2);
    t1 := RotrShares(a, 13);
    t0 := XorShares(t0, t1);
    t1 := RotrShares(a, 22);
    var s0 := XorShares(t0, t1);
    var maj := m.Maj(a, b, c);
    var temp2 := m.Add(s0, maj);
    h := g;
    g := f;
    f := e;
    e := m.Add(d, temp1);
    d := c;
    c := b;
    b := a;
    a := m.Add(temp1, temp2);
    u := Sha256.Vars(a, b, c, d, e, f, g, h);
  }

  /** The 64 rounds. */
  method CompressRounds(m: Machine, v: Sha256.Vars<Triple<Word>>, k: seq<Word>, w: array<Triple<Word>>)
    returns (u: Sha256.Vars<Triple<Word>>)
    requires m.Valid() && m.countY + 576 <= m.y0.Length && |k| == 64 && w.Length == 64
    modifies m, m.y0, m.y1, m.y2
    ensures m.Valid() && m.countY == old(m.countY) + 576
    ensures m.log == Rounds(ProveGates(TapesOf(m.tapes), []), old(m.log), v, k, w[..], 64).0
    ensures u == Rounds(ProveGates(TapesOf(m.tapes), []), old(m.log), v, k, w[..], 64).1
  {
    hide Round;
    ghost var g := ProveGates(TapesOf(m.tapes), []);
    u := v;
    var i := 0;
    while i < 64
      invariant 0 <= i <= 64
      invariant m.Valid() && m.countY == old(m.countY) + 9 * i
      invariant m.log == Rounds(g, old(m.log), v, k, w[..], i).0
      invariant u == Rounds(g, old(m.log), v, k, w[..], i).1
    {
      u := RoundStep(m, u, k[i], w[i]);
      i := i + 1;
    }
  }

  /** mpc_ADD(H[i], x, H[i]). */
  method ChainWord(m: Machine, hs: array<Triple<Word>>, i: nat, x: Triple<Word>)
    requires m.Valid() && m.countY < m.y0.Length && i < hs.Length
    modifies m, m.y0, m.y1, m.y2, hs
    ensures m.Valid() && m.countY == old(m.countY) + 1
    ensures m.log == ProveAdd(TapesOf(m.tapes), [], old(m.log), old(hs[i]), x).0
    ensures hs[..] == old(hs[..])[i := ProveAdd(TapesOf(m.tapes), [], old(m.log), old(hs[i]), x).1]
  {
    hide ProveAdd, TapesOf;
    hs[i] := m.Add(hs[i], x);
  }

  /** The eight additions into the chaining value, in place. */
  method ChainValue(m: Machine, hs: array<Triple<Word>>, u: Sha256.Vars<Triple<Word>>)
    requires m.Valid() && m.countY + 8 <= m.y0.Length && hs.Length == 8
    modifies m, m.y0, m.y1, m.y2, hs
    ensures m.Valid() && m.countY == old(m.countY) + 8
    ensures m.log == AddVars(ProveGates(TapesOf(m.tapes), []), old(m.log), old(VarsOf(hs[..])), u).0
    ensures VarsOf(hs[..]) == AddVars(ProveGates(TapesOf(m.tapes), []), old(m.log), old(VarsOf(hs[..])), u).1
  {
    hide ProveAdd, TapesOf;
    ChainWord(m, hs, 0, u.a);
    ChainWord(m, hs, 1, u.b);
    ChainWord(m, hs, 2, u.c);
    ChainWord(m, hs, 3, u.d);
    ChainWord(m, hs, 4, u.e);
    ChainWord(m, hs, 5, u.f);
    ChainWord(m, hs, 6, u.g);
    ChainWord(m, hs, 7, u.h);
  }

  /** The first loop of a block: the sixteen message words of each share. */
  method LoadBlock(p: Triple<seq<Byte>>, ghost x: Triple<seq<Byte>>, blk: nat) returns (w: array<Triple<Word>>)
    requires SameLength(x) && blk < NumBlocks(|x.p0|)
    requires p == Triple(PadBytes(x.p0), PadBytes(x.p1), PadBytes(x.p2))
    ensures fresh(w) && w.Length == 64 && w[..16] == ShareChunks(x)[blk]
  {
    hide PadBytes, ShareChunks, LoadShares, NumBlocks;
    w := new Triple<Word>[64](_ => Triple(ZERO, ZERO, ZERO));
    var j := 0;
    while j < 16
      invariant 0 <= j <= 16
      invariant forall i :: 0 <= i < j ==> w[i] == ShareChunks(x)[blk][i]
    {
      LoadedChunk(x, blk, j);
      w[j] := LoadShares(p, 64 * blk + 4 * j);
      j := j + 1;
    }
  }

  /** One block of the loop of mpc_sha256_prove_impl: load, expand, compress, chain. */
  method ProveBlock(m: Machine, p: Triple<seq<Byte>>, ghost x: Triple<seq<Byte>>, blk: nat, hs: array<Triple<Word>>)
    requires m.Valid() && m.countY + 728 <= m.y0.Length && hs.Length == 8
    requires SameLength(x) && blk < NumBlocks(|x.p0|)
    requires p == Triple(PadBytes(x.p0), PadBytes(x.p1), PadBytes(x.p2))
    modifies m, m.y0, m.y1, m.y2, hs
    ensures m.Valid() && m.countY == old(m.countY) + 728
    ensures m.log
        == Block(ProveGates(TapesOf(m.tapes), []), old(m.log), old(VarsOf(hs[..])), Sha256.K, ShareChunks(x)[blk]).0
    ensures VarsOf(hs[..])
        == Block(ProveGates(TapesOf(m.tapes), []), old(m.log), old(VarsOf(hs[..])), Sha256.K, ShareChunks(x)[blk]).1
  {
    var w := LoadBlock(p, x, blk);
    RunBlock(m, w, ShareChunks(x)[blk], Sha256.K, hs);
  }

  method RunBlock(m: Machine, w: array<Triple<Word>>, ghost chunk: seq<Triple<Word>>, k: seq<Word>,
                  hs: array<Triple<Word>>)
    requires m.Valid() && m.countY + 728 <= m.y0.Length && hs.Length == 8 && w.Length == 64 && |k| == 64 && hs != w
    requires |chunk| == 16 && w[..16] == chunk
    modifies m, m.y0, m.y1, m.y2, hs, w
    ensures m.Valid() && m.countY == old(m.countY) + 728
    ensures m.log == Block(ProveGates(TapesOf(m.tapes), []), old(m.log), old(VarsOf(hs[..])), k, chunk).0
    ensures VarsOf(hs[..]) == Block(ProveGates(TapesOf(m.tapes), []), old(m.log), old(VarsOf(hs[..])), k, chunk).1
  {
    hide ProveGates, TapesOf, Schedule, Rounds, AddVars;
    ExpandSchedule(m, w, chunk);
    var v := VarsOf(hs[..]);
    var u := CompressRounds(m, v, k, w);
    ChainValue(m, hs, u);
  }

  /** The chaining value at the start: the constant is given to all three parties. */
  method InitialShares() returns (hs: array<Triple<Word>>)
    ensures fresh(hs) && hs.Length == 8
    ensures forall t :: VarsOf(hs[..]) == LiftVars(ProveGates(t, []), Sha256.H0)
  {
    hide LiftVars, ProveGates, VarsOf;
    hs := SharedCopies(Sha256.H0);
  }

  method SharedCopies(v: Sha256.Vars<Word>) returns (hs: array<Triple<Word>>)
    ensures fresh(hs) && hs.Length == 8
    ensures forall t :: VarsOf(hs[..]) == LiftVars(ProveGates(t, []), v)
  {
    hide LiftVars, ProveGates, VarsOf, Sha256.WordsOf;
    hs := new Triple<Word>[8](_ => Triple(ZERO, ZERO, ZERO));
    var iv := Sha256.WordsOf(v);
    var i := 0;
    while i < 8
      invariant 0 <= i <= 8
      invariant forall j :: 0 <= j < i ==> hs[j] == Triple(iv[j], iv[j], iv[j])
    {
      hs[i] := Triple(iv[i], iv[i], iv[i]);
      i := i + 1;
    }
    forall t ensures VarsOf(hs[..]) == LiftVars(ProveGates(t, []), v) {
      LiftedShares(v, hs[..], t);
    }
  }

  lemma LiftedShares(v: Sha256.Vars<Word>, hs: seq<Triple<Word>>, t: Tapes)
    requires |hs| == 8
    requires forall j :: 0 <= j < 8 ==>
      hs[j] == Triple(Sha256.WordsOf(v)[j], Sha256.WordsOf(v)[j], Sha256.WordsOf(v)[j])
    ensures VarsOf(hs) == LiftVars(ProveGates(t, []), v)
  {}

  /** The loop over all blocks. */
  method ProveBlocks(m: Machine, p: Triple<seq<Byte>>, ghost x: Triple<seq<Byte>>, n: nat, hs: array<Triple<Word>>)
    requires m.Valid() && m.countY == 0 && m.log == NOTHING && m.y0.Length == GATES_PER_BLOCK * n && hs.Length == 8
    requires SameLength(x) && n == NumBlocks(|x.p0|)
    requires p == Triple(PadBytes(x.p0), PadBytes(x.p1), PadBytes(x.p2))
    modifies m, m.y0, m.y1, m.y2, hs
    ensures m.Valid() && m.countY == m.y0.Length
    ensures m.log
        == Blocks(ProveGates(TapesOf(m.tapes), []), NOTHING, old(VarsOf(hs[..])), Sha256.K, ShareChunks(x), n).0
    ensures VarsOf(hs[..])
        == Blocks(ProveGates(TapesOf(m.tapes), []), NOTHING, old(VarsOf(hs[..])), Sha256.K, ShareChunks(x), n).1
  {
    hide NumBlocks, Block, ShareChunks, ProveGates, TapesOf, PadBytes;
    ghost var g := ProveGates(TapesOf(m.tapes), []);
    ghost var h := VarsOf(hs[..]);
    var blk := 0;
    while blk < n
      invariant 0 <= blk <= n
      invariant m.Valid() && m.countY == GATES_PER_BLOCK * blk
      invariant m.log == Blocks(g, NOTHING, h, Sha256.K, ShareChunks(x), blk).0
      invariant VarsOf(hs[..]) == Blocks(g, NOTHING, h, Sha256.K, ShareChunks(x), blk).1
    {
      ProveBlock(m, p, x, blk, hs);
      blk := blk + 1;
    }
  }

  /** mpc_sha256_prove: records one word per gate in each view and returns the output shares. */
  method MpcSha256Prove(lBits: nat, shares: Triple<RVec>, tapes: Triple<seq<Byte>>, v0: View, v1: View, v2: View)
    returns (outs: Triple<seq<Word>>)
    requires IsRVec(shares.p0, lBits) && IsRVec(shares.p1, lBits) && IsRVec(shares.p2, lBits)
    requires v0 != v1 && v1 != v2 && v0 != v2 && v0.y != v1.y && v1.y != v2.y && v0.y != v2.y
    requires v0.y.Length == v1.y.Length == v2.y.Length == GATES_PER_BLOCK * NumBlocks(LBytes(lBits))
    requires |tapes.p0| == |tapes.p1| == |tapes.p2| == 4 * v0.y.Length
    modifies v0`x, v1`x, v2`x, v0.y, v1.y, v2.y
    ensures v0.x == shares.p0 && v1.x == shares.p1 && v2.x == shares.p2
    ensures SameLength(InputBytes(shares, lBits))
    ensures var r := ProverRun(InputBytes(shares, lBits), TapesOf(tapes), []);
      && outs == OutputShares(r.1)
      && |r.0.ys| == v0.y.Length
      && forall i :: 0 <= i < v0.y.Length ==> Triple(v0.y[i], v1.y[i], v2.y[i]) == r.0.ys[i]
  {
    hide NumBlocks, ShareChunks, ProveGates, TapesOf, InputBytes, LiftVars, PadBytes, RBytes, OutputShares, Blocks;
    v0.x, v1.x, v2.x := shares.p0, shares.p1, shares.p2;
    InputBytesLength(shares, lBits);
    ghost var x := InputBytes(shares, lBits);
    var p0 := PadShare(RBytes(shares.p0, lBits));
    var p1 := PadShare(RBytes(shares.p1, lBits));
    var p2 := PadShare(RBytes(shares.p2, lBits));
    var p := Triple(p0[..], p1[..], p2[..]);
    var m := new Machine(tapes, v0.y, v1.y, v2.y);
    var hs := InitialShares();
    ProveBlocks(m, p, x, NumBlocks(LBytes(lBits)), hs);
    outs := CollectOutputs(hs);
  }

  lemma InputBytesLength(shares: Triple<RVec>, lBits: nat)
    requires IsRVec(shares.p0, lBits) && IsRVec(shares.p1, lBits) && IsRVec(shares.p2, lBits)
    ensures var x := InputBytes(shares, lBits);
      SameLength(x) && |x.p0| == LBytes(lBits)
      && x.p0 == RBytes(shares.p0, lBits) && x.p1 == RBytes(shares.p1, lBits) && x.p2 == RBytes(shares.p2, lBits)
  {}

  lemma PartyWord(v: Sha256.Vars<Triple<Word>>, hs: seq<Triple<Word>>, i: nat)
    requires |hs| == 8 && i < 8 && v == VarsOf(hs)
    ensures PartyWords(v, 0)[i] == hs[i].p0 && PartyWords(v, 1)[i] == hs[i].p1 && PartyWords(v, 2)[i] == hs[i].p2
  {
    if i < 4 { if i < 2 { if i == 0 {} else {} } else if i == 2 {} else {} }
    else if i < 6 { if i == 4 {} else {} } else if i == 6 {} else {}
  }

  /** The final loop over the eight digest words. */
  method CollectOutputs(hs: array<Triple<Word>>) returns (outs: Triple<seq<Word>>)
    requires hs.Length == 8
    ensures outs == OutputShares(VarsOf(hs[..]))
  {
    ghost var v := VarsOf(hs[..]);
    var o0: seq<Word>, o1: seq<Word>, o2: seq<Word> := [], [], [];
    var i := 0;
    while i < 8
      invariant 0 <= i <= 8
      invariant o0 == PartyWords(v, 0)[..i] && o1 == PartyWords(v, 1)[..i] && o2 == PartyWords(v, 2)[..i]
    {
      PartyWord(v, hs[..], i);
      o0, o1, o2 := o0 + [hs[i].p0], o1 + [hs[i].p1], o2 + [hs[i].p2];
      i := i + 1;
    }
    assert o0 == PartyWords(v, 0) && o1 == PartyWords(v, 1) && o2 == PartyWords(v, 2);
    outs := Triple(o0, o1, o2);
  }
}
