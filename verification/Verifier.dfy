/** The verifier: the gate checks, the replay and the early exits of mpc_sha256_verify, on the two
    opened parties. */
module Verifier {
  import opened Bits
  import opened Shares
  import opened Circuit
  import opened Evaluations
  import opened Padding
  import opened Memory
  import opened Budget
  import opened Soundness
  import opened Prover
  import Sha256

  // ----- a failed check stays failed

  ghost predicate Sticky(g: Gates<Checked, Pair<Word>>) {
    && (forall s, x, y {:trigger g.add(s, x, y)} :: g.add(s, x, y).0.ok ==> s.ok)
    && (forall s, x, y {:trigger g.and(s, x, y)} :: g.and(s, x, y).0.ok ==> s.ok)
  }

  lemma GatesSticky(tapes: Pair<seq<Word>>, ys: Pair<seq<Word>>)
    ensures Sticky(VerifyGates(tapes, ys))
  {
    hide AddCheck, AndShare, XorPair;
  }

  lemma ScheduleWordFails(tapes: Pair<seq<Word>>, ys: Pair<seq<Word>>, s: Checked, a: Pair<Word>, b: Pair<Word>,
                          c: Pair<Word>, d: Pair<Word>)
    ensures ScheduleWord(VerifyGates(tapes, ys), s, a, b, c, d).0.ok ==> s.ok
  {
    hide AddCheck, XorPair;
  }

  lemma {:induction false} ScheduleFails(tapes: Pair<seq<Word>>, ys: Pair<seq<Word>>, s: Checked, c: seq<Pair<Word>>,
                                         i: nat, n: nat)
    requires |c| == 16 <= i <= n
    requires !Schedule(VerifyGates(tapes, ys), s, c, i).0.ok
    ensures !Schedule(VerifyGates(tapes, ys), s, c, n).0.ok
  {
    hide ScheduleWord;
    if i < n {
      ScheduleFails(tapes, ys, s, c, i, n - 1);
      var r := Schedule(VerifyGates(tapes, ys), s, c, n - 1);
      ScheduleWordFails(tapes, ys, r.0, r.1[n - 17], r.1[n - 16], r.1[n - 8], r.1[n - 3]);
    }
  }

  lemma RoundFails(tapes: Pair<seq<Word>>, ys: Pair<seq<Word>>, s: Checked, v: Sha256.Vars<Pair<Word>>, k: Word,
                   w: Pair<Word>)
    ensures Round(VerifyGates(tapes, ys), s, v, k, w).0.ok ==> s.ok
  {
    hide AddCheck, AndShare, XorPair;
  }

  lemma {:induction false} RoundsFail(tapes: Pair<seq<Word>>, ys: Pair<seq<Word>>, s: Checked,
                                      v: Sha256.Vars<Pair<Word>>,
                                      k: seq<Word>, w: seq<Pair<Word>>, i: nat, n: nat)
    requires i <= n <= |k| == |w|
    requires !Rounds(VerifyGates(tapes, ys), s, v, k, w, i).0.ok
    ensures !Rounds(VerifyGates(tapes, ys), s, v, k, w, n).0.ok
  {
    hide Round;
    if i < n {
      RoundsFail(tapes, ys, s, v, k, w, i, n - 1);
      var r := Rounds(VerifyGates(tapes, ys), s, v, k, w, n - 1);
      RoundFails(tapes, ys, r.0, r.1, k[n - 1], w[n - 1]);
    }
  }

  lemma AddVarsFails(tapes: Pair<seq<Word>>, ys: Pair<seq<Word>>, s: Checked, x: Sha256.Vars<Pair<Word>>,
                     y: Sha256.Vars<Pair<Word>>)
    ensures AddVars(VerifyGates(tapes, ys), s, x, y).0.ok ==> s.ok
  {
    hide AddCheck, XorPair;
  }

  /** The linear gates of the verifier are the pairwise ones. */
  ghost predicate Pairwise(g: Gates<Checked, Pair<Word>>) {
    && (forall x, y {:trigger g.xor(x, y)} :: g.xor(x, y) == XorPair(x, y))
    && (forall x, n {:trigger g.rotr(x, n)} :: g.rotr(x, n) == RotrPair(x, n))
    && (forall x, n {:trigger g.shr(x, n)} :: g.shr(x, n) == ShrPair(x, n))
    && (forall c {:trigger g.lift(c)} :: g.lift(c) == Pair(c, c))
  }

  function RotrPair(x: Pair<Word>, n: nat): Pair<Word> { Pair(Rotr(x.own, n), Rotr(x.next, n)) }

  function ShrPair(x: Pair<Word>, n: nat): Pair<Word> { Pair(Shr(x.own, n), Shr(x.next, n)) }

  lemma GatesPairwise(tapes: Pair<seq<Word>>, ys: Pair<seq<Word>>)
    ensures Pairwise(VerifyGates(tapes, ys))
  {}

  /** A block that was accepted was accepted after its schedule and after its rounds. */
  lemma BlockFails(tapes: Pair<seq<Word>>, ys: Pair<seq<Word>>, s: Checked, h: Sha256.Vars<Pair<Word>>, k: seq<Word>,
                   c: seq<Pair<Word>>)
    requires |c| == 16 && |k| == 64
    ensures var g := VerifyGates(tapes, ys);
      var ws := Schedule(g, s, c, 64);
      var r := Rounds(g, ws.0, h, k, ws.1, 64);
      Block(g, s, h, k, c).0.ok ==> s.ok && ws.0.ok && r.0.ok
  {
    hide AddVars, VerifyGates;
    var g := VerifyGates(tapes, ys);
    var ws := Schedule(g, s, c, 64);
    var r := Rounds(g, ws.0, h, k, ws.1, 64);
    AddVarsFails(tapes, ys, r.0, h, r.1);
    if !s.ok { ScheduleFails(tapes, ys, s, c, 16, 64); }
    if !ws.0.ok { RoundsFail(tapes, ys, ws.0, h, k, ws.1, 0, 64); }
  }

  lemma {:induction false} BlocksFail(tapes: Pair<seq<Word>>, ys: Pair<seq<Word>>, s: Checked,
                                      h: Sha256.Vars<Pair<Word>>,
                                      k: seq<Word>, c: seq<seq<Pair<Word>>>, i: nat, n: nat)
    requires i <= n <= |c| && |k| == 64 && forall j :: 0 <= j < |c| ==> |c[j]| == 16
    requires !Blocks(VerifyGates(tapes, ys), s, h, k, c, i).0.ok
    ensures !Blocks(VerifyGates(tapes, ys), s, h, k, c, n).0.ok
  {
    hide Block, VerifyGates;
    if i < n {
      BlocksFail(tapes, ys, s, h, k, c, i, n - 1);
      var r := Blocks(VerifyGates(tapes, ys), s, h, k, c, n - 1);
      BlockFails(tapes, ys, r.0, r.1, k, c[n - 1]);
    }
  }

  // ----- the machine

  /** The counters, tapes and opened views that every gate check shares. */
  class Machine {
    const tapes: Pair<seq<Byte>>
    const ve: View
    const ve1: View
    var randCount: nat
    var countY: nat

    ghost predicate Valid()
      reads this
    {
      && ve.y.Length == ve1.y.Length
      && 4 * ve.y.Length <= |tapes.own| == |tapes.next|
      && countY <= ve.y.Length && randCount == 4 * countY
    }

    ghost function State(): Checked
      reads this
    {
      Checked(countY, true)
    }

    ghost function GatesOf(): Gates<Checked, Pair<Word>>
      reads ve.y, ve1.y
    {
      VerifyGates(Pair(TapeOf(tapes.own), TapeOf(tapes.next)), Pair(ve.y[..], ve1.y[..]))
    }

    constructor (tapes: Pair<seq<Byte>>, ve: View, ve1: View)
      requires ve.y.Length == ve1.y.Length && 4 * ve.y.Length <= |tapes.own| == |tapes.next|
      ensures Valid() && countY == 0
      ensures this.tapes == tapes && this.ve == ve && this.ve1 == ve1
    {
      this.tapes, this.ve, this.ve1 := tapes, ve, ve1;
      randCount, countY := 0, 0;
    }

    method NextRandom() returns (r: Pair<Word>)
      requires Valid() && countY < ve.y.Length
      modifies this`randCount
      ensures r == ViewPair(Pair(TapeOf(tapes.own), TapeOf(tapes.next)), countY)
      ensures randCount == old(randCount) + 4
    {
      WordAtTape(tapes.own, countY);
      WordAtTape(tapes.next, countY);
      r := Pair(WordAt(tapes.own, randCount), WordAt(tapes.next, randCount));
      randCount := randCount + 4;
    }

    /** mpc_ADD_verify: one comparison per carry bit, leaving at the first mismatch. */
    method AddVerify(x: Pair<Word>, y: Pair<Word>) returns (ok: bool, z: Pair<Word>)
      requires Valid() && countY < ve.y.Length
      modifies this
      ensures ok == GatesOf().add(old(State()), x, y).0.ok
      ensures ok ==> Valid() && countY == old(countY) + 1
                     && State() == GatesOf().add(old(State()), x, y).0 && z == GatesOf().add(old(State()), x, y).1
    {
      var r := NextRandom();
      var c := Pair(ve.y[countY], ve1.y[countY]);
      z := x;
      ok := CheckCarries(x, y, r, c);
      if ok {
        z := Pair(Xor(Xor(x.own, y.own), c.own), Xor(Xor(x.next, y.next), c.next));
        countY := countY + 1;
      }
    }

    /** mpc_AND_verify. */
    method AndVerify(x: Pair<Word>, y: Pair<Word>) returns (ok: bool, z: Pair<Word>)
      requires Valid() && countY < ve.y.Length
      modifies this
      ensures ok == GatesOf().and(old(State()), x, y).0.ok
      ensures ok ==> Valid() && countY == old(countY) + 1
                     && State() == GatesOf().and(old(State()), x, y).0 && z == GatesOf().and(old(State()), x, y).1
    {
      hide AndShare;
      var r := NextRandom();
      var t := AndShare(x, y, r);
      z := x;
      if ve.y[countY] != t {
        return false, z;
      }
      z := Pair(t, ve1.y[countY]);
      countY := countY + 1;
      ok := true;
    }

    /** mpc_CH_verify. */
    method ChVerify(e: Pair<Word>, f: Pair<Word>, g: Pair<Word>) returns (ok: bool, z: Pair<Word>)
      requires Valid() && countY < ve.y.Length
      modifies this
      ensures ok == GatesOf().and(old(State()), e, XorPair(f, g)).0.ok
      ensures ok ==> Valid() && countY == old(countY) + 1
                     && State() == GatesOf().and(old(State()), e, XorPair(f, g)).0
                     && z == XorPair(GatesOf().and(old(State()), e, XorPair(f, g)).1, g)
    {
      var t0 := XorPair(f, g);
      ok, t0 := AndVerify(e, t0);
      z := XorPair(t0, g);
    }

    /** mpc_MAJ_verify. */
    method MajVerify(a: Pair<Word>, b: Pair<Word>, c: Pair<Word>) returns (ok: bool, z: Pair<Word>)
      requires Valid() && countY < ve.y.Length
      modifies this
      ensures ok == GatesOf().and(old(State()), XorPair(a, b), XorPair(a, c)).0.ok
      ensures ok ==> Valid() && countY == old(countY) + 1
                     && State() == GatesOf().and(old(State()), XorPair(a, b), XorPair(a, c)).0
                     && z == XorPair(GatesOf().and(old(State()), XorPair(a, b), XorPair(a, c)).1, a)
    {
      var t0 := XorPair(a, b);
      var t1 := XorPair(a, c);
      ok, z := AndVerify(t0, t1);
      z := XorPair(z, a);
    }
  }

  /** The loop of mpc_ADD_verify. */
  method CheckCarries(x: Pair<Word>, y: Pair<Word>, r: Pair<Word>, c: Pair<Word>) returns (ok: bool)
    ensures ok == AddCheck(x, y, r, c)
  {
    hide NextCarry;
    var i := 0;
    while i < 31
      invariant 0 <= i <= 31
      invariant forall j :: 0 <= j < i ==> CarryStep(x, y, r, c, j)
    {
      NextCarryFormula(PairBit(x, i), PairBit(y, i), PairBit(r, i), PairBit(c, i));
      var a0, a1 := x.own[i] != c.own[i], x.next[i] != c.next[i];
      var b0, b1 := y.own[i] != c.own[i], y.next[i] != c.next[i];
      var t := ((a0 && b1) != (a1 && b0)) != r.next[i];
      if c.own[i + 1] != (((t != (a0 && b0)) != c.own[i]) != r.own[i]) {
        assert !CarryStep(x, y, r, c, i);
        return false;
      }
      i := i + 1;
    }
    ok := true;
  }

  lemma NextCarryFormula(x: Pair<bool>, y: Pair<bool>, r: Pair<bool>, c: Pair<bool>)
    ensures var a0, a1 := x.own != c.own, x.next != c.next;
      var b0, b1 := y.own != c.own, y.next != c.next;
      var t := ((a0 && b1) != (a1 && b0)) != r.next;
      NextCarry(x, y, r, c) == (((t != (a0 && b0)) != c.own) != r.own)
  {}

  // ----- the circuit

  /** The body of the schedule loop. */
  method ScheduleStep(m: Machine, w16: Pair<Word>, w15: Pair<Word>, w7: Pair<Word>, w2: Pair<Word>)
    returns (ok: bool, z: Pair<Word>)
    requires m.Valid() && m.countY + 3 <= m.ve.y.Length
    modifies m
    ensures ok == ScheduleWord(m.GatesOf(), old(m.State()), w16, w15, w7, w2).0.ok
    ensures ok ==> m.Valid() && m.countY == old(m.countY) + 3
                   && m.State() == ScheduleWord(m.GatesOf(), old(m.State()), w16, w15, w7, w2).0
                   && z == ScheduleWord(m.GatesOf(), old(m.State()), w16, w15, w7, w2).1
  {
    hide VerifyGates, XorPair, RotrPair, ShrPair;
    KnowGates(m);
    var t0 := RotrPair(w15, 7);
    var t1 := RotrPair(w15, 18);
    t0 := XorPair(t0, t1);
    t1 := ShrPair(w15, 3);
    var s0 := XorPair(t0, t1);
    t0 := RotrPair(w2, 17);
    t1 := RotrPair(w2, 19);
    t0 := XorPair(t0, t1);
    t1 := ShrPair(w2, 10);
    var s1 := XorPair(t0, t1);
    z := w16;
    ok, t1 := m.AddVerify(w16, s0);
    if !ok { return; }
    ok, t1 := m.AddVerify(w7, t1);
    if !ok { return; }
    ok, z := m.AddVerify(t1, s1);
  }

  lemma KnowGates(m: Machine)
    ensures Sticky(m.GatesOf()) && Pairwise(m.GatesOf())
  {
    GatesSticky(Pair(TapeOf(m.tapes.own), TapeOf(m.tapes.next)), Pair(m.ve.y[..], m.ve1.y[..]));
    GatesPairwise(Pair(TapeOf(m.tapes.own), TapeOf(m.tapes.next)), Pair(m.ve.y[..], m.ve1.y[..]));
  }

  /** The message schedule loop, leaving at the first rejected gate. */
  method ExpandSchedule(m: Machine, w: array<Pair<Word>>, ghost chunk: seq<Pair<Word>>) returns (ok: bool)
    requires m.Valid() && m.countY + 144 <= m.ve.y.Length && w.Length == 64
    requires |chunk| == 16 && w[..16] == chunk
    modifies m, w
    ensures ok == Schedule(m.GatesOf(), old(m.State()), chunk, 64).0.ok
    ensures ok ==> m.Valid() && m.countY == old(m.countY) + 144
                   && m.State() == Schedule(m.GatesOf(), old(m.State()), chunk, 64).0
                   && w[..] == Schedule(m.GatesOf(), old(m.State()), chunk, 64).1
  {
    hide ScheduleWord, VerifyGates;
    ghost var g := m.GatesOf();
    ghost var start := m.State();
    var j := 16;
    while j < 64
      invariant 16 <= j <= 64
      invariant m.Valid() && m.countY == old(m.countY) + 3 * (j - 16)
      invariant m.State() == Schedule(g, start, chunk, j).0
      invariant w[..j] == Schedule(g, start, chunk, j).1
    {
      ghost var before := w[..j];
      assert w[j - 15] == before[j - 15] && w[j - 2] == before[j - 2] && w[j - 16] == before[j - 16];
      assert w[j - 7] == before[j - 7];
      var z;
      ok, z := ScheduleStep(m, w[j - 16], w[j - 15], w[j - 7], w[j - 2]);
      if !ok {
        FailedSchedule(m, start, chunk, j + 1);
        return;
      }
      w[j] := z;
      assert w[..j + 1] == before + [z];
      j := j + 1;
    }
    ok := true;
    assert w[..] == w[..64];
  }

  lemma FailedSchedule(m: Machine, s: Checked, chunk: seq<Pair<Word>>, j: nat)
    requires |chunk| == 16 <= j <= 64 && !Schedule(m.GatesOf(), s, chunk, j).0.ok
    ensures !Schedule(m.GatesOf(), s, chunk, 64).0.ok
  {
    ScheduleFails(Pair(TapeOf(m.tapes.own), TapeOf(m.tapes.next)), Pair(m.ve.y[..], m.ve1.y[..]), s, chunk, j, 64);
  }

  /** The body of the round loop. */
  method RoundStep(m: Machine, v: Sha256.Vars<Pair<Word>>, k: Word, w: Pair<Word>)
    returns (ok: bool, u: Sha256.Vars<Pair<Word>>)
    requires m.Valid() && m.countY + 9 <= m.ve.y.Length
    modifies m
    ensures ok == Round(m.GatesOf(), old(m.State()), v, k, w).0.ok
    ensures ok ==> m.Valid() && m.countY == old(m.countY) + 9
                   && m.State() == Round(m.GatesOf(), old(m.State()), v, k, w).0
                   && u == Round(m.GatesOf(), old(m.State()), v, k, w).1
  {
    hide VerifyGates, XorPair, RotrPair;
    KnowGates(m);
    var a, b, c, d, e, f, g, h := v.a, v.b, v.c, v.d, v.e, v.f, v.g, v.h;
    u := v;
    var t0 := RotrPair(e, 6);
    var t1 := RotrPair(e, 11);
    t0 := XorPair(t0, t1);
    t1 := RotrPair(e, 25);
    var s1 := XorPair(t0, t1);
    var temp1, temp2, maj;
    ok, t0 := m.AddVerify(h, s1);
    if !ok { return; }
    ok, t1 := m.ChVerify(e, f, g);
    if !ok { return; }
    ok, t1 := m.AddVerify(t0, t1);
    if !ok { return; }
    t0 := Pair(k, k);
    ok, t1 := m.AddVerify(t1, t0);
    if !ok { return; }
    ok, temp1 := m.AddVerify(t1, w);
    if !ok { return; }
    t0 := RotrPair(a, 2);
    t1 := RotrPair(a, 13);
    t0 := XorPair(t0, t1);
    t1 := RotrPair(a, 22);
    var s0 := XorPair(t0, t1);
    ok, maj := m.MajVerify(a, b, c);
    if !ok { return; }
    ok, temp2 := m.AddVerify(s0, maj);
    if !ok { return; }
    h := g;
    g := f;
    f := e;
    ok, e := m.AddVerify(d, temp1);
    if !ok { return; }
    d := c;
    c := b;
    b := a;
    ok, a := m.AddVerify(temp1, temp2);
    u := Sha256.Vars(a, b, c, d, e, f, g, h);
  }

  /** The 64 rounds, leaving at the first rejected gate. */
  method CompressRounds(m: Machine, v: Sha256.Vars<Pair<Word>>, k: seq<Word>, w: array<Pair<Word>>)
    returns (ok: bool, u: Sha256.Vars<Pair<Word>>)
    requires m.Valid() && m.countY + 576 <= m.ve.y.Length && |k| == 64 && w.Length == 64
    modifies m
    ensures ok == Rounds(m.GatesOf(), old(m.State()), v, k, w[..], 64).0.ok
    ensures ok ==> m.Valid() && m.countY == old(m.countY) + 576
                   && m.State() == Rounds(m.GatesOf(), old(m.State()), v, k, w[..], 64).0
                   && u == Rounds(m.GatesOf(), old(m.State()), v, k, w[..], 64).1
  {
    hide Round, VerifyGates;
    ghost var g := m.GatesOf();
    u := v;
    var i := 0;
    while i < 64
      invariant 0 <= i <= 64
      invariant m.Valid() && m.countY == old(m.countY) + 9 * i
      invariant m.State() == Rounds(g, old(m.State()), v, k, w[..], i).0
      invariant u == Rounds(g, old(m.State()), v, k, w[..], i).1
    {
      ok, u := RoundStep(m, u, k[i], w[i]);
      if !ok {
        FailedRounds(m, old(m.State()), v, k, w[..], i + 1);
        return;
      }
      i := i + 1;
    }
    ok := true;
  }

  lemma FailedRounds(m: Machine, s: Checked, v: Sha256.Vars<Pair<Word>>, k: seq<Word>, w: seq<Pair<Word>>, i: nat)
    requires i <= 64 == |k| == |w| && !Rounds(m.GatesOf(), s, v, k, w, i).0.ok
    ensures !Rounds(m.GatesOf(), s, v, k, w, 64).0.ok
  {
    RoundsFail(Pair(TapeOf(m.tapes.own), TapeOf(m.tapes.next)), Pair(m.ve.y[..], m.ve1.y[..]), s, v, k, w, i, 64);
  }

  /** mpc_ADD_verify(H[i], x, H[i]). */
  method ChainWord(m: Machine, hs: array<Pair<Word>>, i: nat, x: Pair<Word>) returns (ok: bool)
    requires m.Valid() && m.countY < m.ve.y.Length && i < hs.Length
    modifies m, hs
    ensures ok == m.GatesOf().add(old(m.State()), old(hs[i]), x).0.ok
    ensures ok ==> m.Valid() && m.countY == old(m.countY) + 1
                   && m.State() == m.GatesOf().add(old(m.State()), old(hs[i]), x).0
                   && hs[..] == old(hs[..])[i := m.GatesOf().add(old(m.State()), old(hs[i]), x).1]
  {
    hide VerifyGates;
    var z;
    ok, z := m.AddVerify(hs[i], x);
    if ok { hs[i] := z; }
  }

  /** The first n additions of AddVars, word by word. */
  function AddWords(g: Gates<Checked, Pair<Word>>, s: Checked, x: seq<Pair<Word>>, y: seq<Pair<Word>>,
                    n: nat): (r: (Checked, seq<Pair<Word>>))
    requires n <= |x| == |y|
    ensures |r.1| == |x|
  {
    if n == 0 then (s, x)
    else
      var r := AddWords(g, s, x, y, n - 1);
      var z := g.add(r.0, x[n - 1], y[n - 1]);
      (z.0, r.1[n - 1 := z.1])
  }

  lemma {:induction false} AddWordsRest(g: Gates<Checked, Pair<Word>>, s: Checked, x: seq<Pair<Word>>,
                                        y: seq<Pair<Word>>, n: nat)
    requires n <= |x| == |y|
    ensures AddWords(g, s, x, y, n).1[n..] == x[n..]
  {
    if n > 0 { AddWordsRest(g, s, x, y, n - 1); }
  }

  lemma {:induction false} AddWordsFail(g: Gates<Checked, Pair<Word>>, s: Checked, x: seq<Pair<Word>>,
                                        y: seq<Pair<Word>>, i: nat, n: nat)
    requires i <= n <= |x| == |y| && Sticky(g) && !AddWords(g, s, x, y, i).0.ok
    ensures !AddWords(g, s, x, y, n).0.ok
  {
    if i < n { AddWordsFail(g, s, x, y, i, n - 1); }
  }

  lemma AddWordsAreAddVars(g: Gates<Checked, Pair<Word>>, s: Checked, x: seq<Pair<Word>>, y: Sha256.Vars<Pair<Word>>)
    requires |x| == 8
    ensures var r := AddWords(g, s, x, [y.a, y.b, y.c, y.d, y.e, y.f, y.g, y.h], 8);
      AddVars(g, s, VarsOf(x), y).0 == r.0 && AddVars(g, s, VarsOf(x), y).1 == VarsOf(r.1)
  {
    var u := [y.a, y.b, y.c, y.d, y.e, y.f, y.g, y.h];
    AddWordsStep(g, s, x, u, 1);
    AddWordsStep(g, s, x, u, 2);
    AddWordsStep(g, s, x, u, 3);
    AddWordsStep(g, s, x, u, 4);
    AddWordsStep(g, s, x, u, 5);
    AddWordsStep(g, s, x, u, 6);
    AddWordsStep(g, s, x, u, 7);
    AddWordsStep(g, s, x, u, 8);
  }

  lemma AddWordsStep(g: Gates<Checked, Pair<Word>>, s: Checked, x: seq<Pair<Word>>, y: seq<Pair<Word>>, n: nat)
    requires 0 < n <= |x| == |y|
    ensures var r, q := AddWords(g, s, x, y, n - 1), AddWords(g, s, x, y, n);
      q.0 == g.add(r.0, x[n - 1], y[n - 1]).0 && q.1 == r.1[n - 1 := g.add(r.0, x[n - 1], y[n - 1]).1]
  {}

  /** The eight additions into the chaining value, in place, leaving at the first rejected one. */
  method ChainValue(m: Machine, hs: array<Pair<Word>>, u: Sha256.Vars<Pair<Word>>) returns (ok: bool)
    requires m.Valid() && m.countY + 8 <= m.ve.y.Length && hs.Length == 8
    modifies m, hs
    ensures ok == AddVars(m.GatesOf(), old(m.State()), old(VarsOf(hs[..])), u).0.ok
    ensures ok ==> m.Valid() && m.countY == old(m.countY) + 8
                   && m.State() == AddVars(m.GatesOf(), old(m.State()), old(VarsOf(hs[..])), u).0
                   && VarsOf(hs[..]) == AddVars(m.GatesOf(), old(m.State()), old(VarsOf(hs[..])), u).1
  {
    hide VerifyGates, AddVars;
    KnowGates(m);
    var y := [u.a, u.b, u.c, u.d, u.e, u.f, u.g, u.h];
    ghost var g, s, x := m.GatesOf(), m.State(), hs[..];
    AddWordsAreAddVars(g, s, x, u);
    var i := 0;
    while i < 8
      invariant 0 <= i <= 8
      invariant m.Valid() && m.countY == old(m.countY) + i
      invariant m.State() == AddWords(g, s, x, y, i).0
      invariant hs[..] == AddWords(g, s, x, y, i).1
    {
      AddWordsRest(g, s, x, y, i);
      assert hs[i] == hs[..][i..][0] == x[i..][0] == x[i];
      ok := ChainWord(m, hs, i, y[i]);
      if !ok {
        AddWordsFail(g, s, x, y, i + 1, 8);
        return;
      }
      i := i + 1;
    }
    ok := true;
  }

  /** The two share words at offset o of the padded inputs. */
  function LoadPair(p: Pair<seq<Byte>>, o: nat): Pair<Word>
    requires o + 4 <= |p.own| == |p.next|
  {
    Pair(Sha256.LoadBE(p.own[o..o + 4]), Sha256.LoadBE(p.next[o..o + 4]))
  }

  lemma LoadedPair(x: Pair<seq<Byte>>, blk: nat, j: nat)
    requires |x.own| == |x.next| && blk < NumBlocks(|x.own|) && j < 16
    ensures 64 * blk + 4 * j + 4 <= 64 * NumBlocks(|x.own|)
    ensures LoadPair(Pair(PadBytes(x.own), PadBytes(x.next)), 64 * blk + 4 * j) == PairChunks(x)[blk][j]
  {
    hide PadByte, Sha256.LoadBE;
  }

  /** The first loop of a block. */
  method LoadBlock(p: Pair<seq<Byte>>, ghost x: Pair<seq<Byte>>, blk: nat) returns (w: array<Pair<Word>>)
    requires |x.own| == |x.next| && blk < NumBlocks(|x.own|)
    requires p == Pair(PadBytes(x.own), PadBytes(x.next))
    ensures fresh(w) && w.Length == 64 && w[..16] == PairChunks(x)[blk]
  {
    hide PadBytes, PairChunks, LoadPair, NumBlocks;
    w := new Pair<Word>[64](_ => Pair(ZERO, ZERO));
    var j := 0;
    while j < 16
      invariant 0 <= j <= 16
      invariant forall i :: 0 <= i < j ==> w[i] == PairChunks(x)[blk][i]
    {
      LoadedPair(x, blk, j);
      w[j] := LoadPair(p, 64 * blk + 4 * j);
      j := j + 1;
    }
  }

  /** One block: expand, compress, chain, leaving at the first rejected gate. */
  method RunBlock(m: Machine, w: array<Pair<Word>>, ghost chunk: seq<Pair<Word>>, k: seq<Word>, hs: array<Pair<Word>>)
    returns (ok: bool)
    requires m.Valid() && m.countY + 728 <= m.ve.y.Length && hs.Length == 8 && w.Length == 64 && |k| == 64 && hs != w
    requires |chunk| == 16 && w[..16] == chunk
    modifies m, hs, w
    ensures ok == Block(m.GatesOf(), old(m.State()), old(VarsOf(hs[..])), k, chunk).0.ok
    ensures ok ==> m.Valid() && m.countY == old(m.countY) + 728
                   && m.State() == Block(m.GatesOf(), old(m.State()), old(VarsOf(hs[..])), k, chunk).0
                   && VarsOf(hs[..]) == Block(m.GatesOf(), old(m.State()), old(VarsOf(hs[..])), k, chunk).1
  {
    hide VerifyGates, Schedule, Rounds, AddVars, VarsOf;
    BlockNeeds(m, m.State(), VarsOf(hs[..]), k, chunk);
    ok := ExpandSchedule(m, w, chunk);
    if !ok { return; }
    var u;
    ok, u := CompressRounds(m, VarsOf(hs[..]), k, w);
    if !ok { return; }
    ok := ChainValue(m, hs, u);
  }

  lemma BlockNeeds(m: Machine, s: Checked, h: Sha256.Vars<Pair<Word>>, k: seq<Word>, c: seq<Pair<Word>>)
    requires |c| == 16 && |k| == 64
    ensures var g := m.GatesOf();
      var ws := Schedule(g, s, c, 64);
      var r := Rounds(g, ws.0, h, k, ws.1, 64);
      Block(g, s, h, k, c).0.ok ==> s.ok && ws.0.ok && r.0.ok
  {
    BlockFails(Pair(TapeOf(m.tapes.own), TapeOf(m.tapes.next)), Pair(m.ve.y[..], m.ve1.y[..]), s, h, k, c);
  }

  lemma FailedBlocks(m: Machine, s: Checked, h: Sha256.Vars<Pair<Word>>, k: seq<Word>, c: seq<seq<Pair<Word>>>,
                     i: nat, n: nat)
    requires i <= n <= |c| && |k| == 64 && forall j :: 0 <= j < |c| ==> |c[j]| == 16
    requires !Blocks(m.GatesOf(), s, h, k, c, i).0.ok
    ensures !Blocks(m.GatesOf(), s, h, k, c, n).0.ok
  {
    BlocksFail(Pair(TapeOf(m.tapes.own), TapeOf(m.tapes.next)), Pair(m.ve.y[..], m.ve1.y[..]), s, h, k, c, i, n);
  }

  /** The loop over all blocks. */
  method VerifyBlocks(m: Machine, p: Pair<seq<Byte>>, ghost x: Pair<seq<Byte>>, n: nat, k: seq<Word>,
                      hs: array<Pair<Word>>) returns (ok: bool)
    requires m.Valid() && m.countY == 0 && m.ve.y.Length == GATES_PER_BLOCK * n && hs.Length == 8 && |k| == 64
    requires |x.own| == |x.next| && n == NumBlocks(|x.own|)
    requires p == Pair(PadBytes(x.own), PadBytes(x.next))
    modifies m, hs
    ensures ok == Blocks(m.GatesOf(), UNCHECKED, old(VarsOf(hs[..])), k, PairChunks(x), n).0.ok
    ensures ok ==> VarsOf(hs[..]) == Blocks(m.GatesOf(), UNCHECKED, old(VarsOf(hs[..])), k, PairChunks(x), n).1
  {
    hide NumBlocks, Block, PairChunks, VerifyGates, PadBytes, VarsOf;
    ghost var g := m.GatesOf();
    ghost var h := VarsOf(hs[..]);
    var blk := 0;
    while blk < n
      invariant 0 <= blk <= n
      invariant m.Valid() && m.countY == GATES_PER_BLOCK * blk
      invariant m.State() == Blocks(g, UNCHECKED, h, k, PairChunks(x), blk).0
      invariant VarsOf(hs[..]) == Blocks(g, UNCHECKED, h, k, PairChunks(x), blk).1
    {
      var w := LoadBlock(p, x, blk);
      ok := RunBlock(m, w, PairChunks(x)[blk], k, hs);
      if !ok {
        FailedBlocks(m, UNCHECKED, h, k, PairChunks(x), blk + 1, n);
        return;
      }
      blk := blk + 1;
    }
    ok := true;
  }

  /** The chaining value at the start. */
  method InitialPairs() returns (hs: array<Pair<Word>>)
    ensures fresh(hs) && hs.Length == 8
    ensures forall t, ys :: VarsOf(hs[..]) == LiftVars(VerifyGates(t, ys), Sha256.H0)
  {
    hide LiftVars, VerifyGates, VarsOf;
    hs := PairedCopies(Sha256.H0);
  }

  method PairedCopies(v: Sha256.Vars<Word>) returns (hs: array<Pair<Word>>)
    ensures fresh(hs) && hs.Length == 8
    ensures forall t, ys :: VarsOf(hs[..]) == LiftVars(VerifyGates(t, ys), v)
  {
    hide LiftVars, VerifyGates, VarsOf, Sha256.WordsOf;
    hs := new Pair<Word>[8](_ => Pair(ZERO, ZERO));
    var iv := Sha256.WordsOf(v);
    var i := 0;
    while i < 8
      invariant 0 <= i <= 8
      invariant forall j :: 0 <= j < i ==> hs[j] == Pair(iv[j], iv[j])
    {
      hs[i] := Pair(iv[i], iv[i]);
      i := i + 1;
    }
    forall t, ys ensures VarsOf(hs[..]) == LiftVars(VerifyGates(t, ys), v) {
      LiftedPairs(v, hs[..], t, ys);
    }
  }

  lemma LiftedPairs(v: Sha256.Vars<Word>, hs: seq<Pair<Word>>, t: Pair<seq<Word>>, ys: Pair<seq<Word>>)
    requires |hs| == 8 && forall j :: 0 <= j < 8 ==> hs[j] == Pair(Sha256.WordsOf(v)[j], Sha256.WordsOf(v)[j])
    ensures VarsOf(hs) == LiftVars(VerifyGates(t, ys), v)
  {}

  lemma OutputWord(v: Sha256.Vars<Pair<Word>>, hs: seq<Pair<Word>>, i: nat)
    requires |hs| == 8 && i < 8 && v == VarsOf(hs)
    ensures |OwnWords(v)| == 8 && |NextWords(v)| == 8
    ensures OwnWords(v)[i] == hs[i].own && NextWords(v)[i] == hs[i].next
  {
    if i < 4 { if i < 2 { if i == 0 {} else {} } else if i == 2 {} else {} }
    else if i < 6 { if i == 4 {} else {} } else if i == 6 {} else {}
  }

  /** The final comparison with the committed output shares. */
  method CompareOutputs(hs: array<Pair<Word>>, outs: Pair<seq<Word>>) returns (ok: bool)
    requires hs.Length == 8 && |outs.own| == |outs.next| == 8
    ensures ok == (OwnWords(VarsOf(hs[..])) == outs.own && NextWords(VarsOf(hs[..])) == outs.next)
  {
    hide OwnWords, NextWords, VarsOf;
    ghost var v := VarsOf(hs[..]);
    var i := 0;
    OutputWord(v, hs[..], 0);
    while i < 8
      invariant 0 <= i <= 8
      invariant forall j :: 0 <= j < i ==> OwnWords(v)[j] == outs.own[j] && NextWords(v)[j] == outs.next[j]
    {
      OutputWord(v, hs[..], i);
      if hs[i].own != outs.own[i] || hs[i].next != outs.next[i] {
        return false;
      }
      i := i + 1;
    }
    ok := true;
  }

  /** From the initial chaining value through all blocks to the output comparison. */
  method VerifyRun(m: Machine, p: Pair<seq<Byte>>, ghost x: Pair<seq<Byte>>, n: nat, outs: Pair<seq<Word>>)
    returns (ok: bool)
    requires m.Valid() && m.countY == 0 && m.ve.y.Length == GATES_PER_BLOCK * n
    requires |x.own| == |x.next| && n == NumBlocks(|x.own|)
    requires p == Pair(PadBytes(x.own), PadBytes(x.next)) && |outs.own| == |outs.next| == 8
    modifies m
    ensures ok <==>
      var r := Blocks(m.GatesOf(), UNCHECKED, LiftVars(m.GatesOf(), Sha256.H0), Sha256.K, PairChunks(x), n);
      r.0.ok && OwnWords(r.1) == outs.own && NextWords(r.1) == outs.next
  {
    hide NumBlocks, PairChunks, VerifyGates, LiftVars, PadBytes, OwnWords, NextWords, Blocks, VarsOf;
    var hs := InitialPairs();
    ok := VerifyBlocks(m, p, x, n, Sha256.K, hs);
    if !ok { return; }
    ok := CompareOutputs(hs, outs);
  }

  /** mpc_sha256_verify: accepts exactly when the replay of the two opened parties accepts and ends
      in their output shares. */
  method MpcSha256Verify(lBits: nat, outs: Triple<seq<Word>>, e: nat, tapes: Pair<seq<Byte>>, ve: View, ve1: View)
    returns (ok: bool)
    requires IsRVec(ve.x, lBits) && IsRVec(ve1.x, lBits)
    requires ve.y.Length == ve1.y.Length == GATES_PER_BLOCK * NumBlocks(LBytes(lBits))
    requires |tapes.own| == |tapes.next| == 4 * ve.y.Length
    requires |outs.p0| == |outs.p1| == |outs.p2| == 8
    ensures ok <==>
      e < 3 && Accepts(Pair(RBytes(ve.x, lBits), RBytes(ve1.x, lBits)), Pair(TapeOf(tapes.own), TapeOf(tapes.next)),
                       Pair(ve.y[..], ve1.y[..]), Opened(outs, e))
  {
    hide NumBlocks, PairChunks, VerifyGates, LiftVars, PadBytes, RBytes, OwnWords, NextWords, Blocks;
    if e >= 3 { return false; }
    var x := Pair(RBytes(ve.x, lBits), RBytes(ve1.x, lBits));
    var p0 := PadShare(x.own);
    var p1 := PadShare(x.next);
    var m := new Machine(tapes, ve, ve1);
    ok := VerifyRun(m, Pair(p0[..], p1[..]), x, NumBlocks(LBytes(lBits)), Opened(outs, e));
  }
}
