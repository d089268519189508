/** Two opened views say nothing about the third party's share: for any other share there is a tape
    of the third party under which the two views are word for word the same. */
module Privacy {
  import opened Bits
  import opened Shares
  import opened Circuit
  import opened Evaluations
  import opened Padding
  import opened Refinement
  import opened Budget
  import Sha256

  function Put<T>(t: Triple<T>, i: nat, v: T): Triple<T> {
    if i % 3 == 0 then t.(p0 := v) else if i % 3 == 1 then t.(p1 := v) else t.(p2 := v)
  }

  /** The same values for the two opened parties e and e+1. */
  ghost predicate Agree<T>(e: nat, s: Triple<T>, t: Triple<T>) {
    s.At(e) == t.At(e) && s.At(e + 1) == t.At(e + 1)
  }

  // ----- patching one gate

  /** The third party's tape word that keeps party e+1's output share of an AND gate. */
  function PatchAnd(e: nat, x: Triple<Word>, y: Triple<Word>, r: Triple<Word>, z: Triple<Word>): Word {
    Xor(r.At(e + 2), Xor(AndShares(x, y, r).At(e + 1), z.At(e + 1)))
  }

  lemma PatchedAnd(e: nat, x1: Triple<Word>, y1: Triple<Word>, x2: Triple<Word>, y2: Triple<Word>, r: Triple<Word>)
    requires e < 3 && Agree(e, x1, x2) && Agree(e, y1, y2)
    ensures var z := AndShares(x1, y1, r);
      Agree(e, z, AndShares(x2, y2, Put(r, e + 2, PatchAnd(e, x2, y2, r, z))))
  {
    hide AndShares, AndShare, Put;
    var z := AndShares(x1, y1, r);
    var w := PatchAnd(e, x2, y2, r, z);
    PutAt(r, e, w);
    AndSharesAt(e, x1, y1, r);
    AndSharesAt(e, x2, y2, r);
    AndSharesAt(e, x2, y2, Put(r, e + 2, w));
    PatchedShare(Opened(x2, e + 1), Opened(y2, e + 1), Opened(r, e + 1), w, z.At(e + 1));
  }

  lemma AndSharesAt(e: nat, x: Triple<Word>, y: Triple<Word>, r: Triple<Word>)
    requires e < 3
    ensures AndShares(x, y, r).At(e) == AndShare(Opened(x, e), Opened(y, e), Opened(r, e))
    ensures AndShares(x, y, r).At(e + 1) == AndShare(Opened(x, e + 1), Opened(y, e + 1), Opened(r, e + 1))
  {
    hide AndShare;
    if e == 0 {} else if e == 1 {} else {}
  }

  lemma PatchedShare(x: Pair<Word>, y: Pair<Word>, r: Pair<Word>, w: Word, target: Word)
    requires w == Xor(r.next, Xor(AndShare(x, y, r), target))
    ensures AndShare(x, y, Pair(r.own, w)) == target
  {
    var z, q := AndShare(x, y, r), AndShare(x, y, Pair(r.own, w));
    forall i | 0 <= i < 32 ensures q[i] == target[i] {
      assert w[i] == (r.next[i] != (z[i] != target[i]));
      assert z[i] == AndBit(x, y, r, i);
      assert q[i] == AndBit(x, y, Pair(r.own, w), i);
    }
  }

  /** Bit i of the third party's carry in the patched run: parties e and e+1 keep the carries c. */
  function OtherCarry(e: nat, x: Triple<Word>, y: Triple<Word>, r: Triple<Word>, c: Triple<Word>, i: nat): bool
    requires i < 32
    decreases i, 0
  {
    if i == 0 then false
    else NextCarry(PairBit(Opened(x, e + 2), i - 1), PairBit(Opened(y, e + 2), i - 1),
                   Pair(PatchBit(e, x, y, r, c, i - 1), r.At(e)[i - 1]),
                   Pair(OtherCarry(e, x, y, r, c, i - 1), c.At(e)[i - 1]))
  }

  /** Bit i of the third party's tape word that keeps bit i+1 of party e+1's carry. */
  function PatchBit(e: nat, x: Triple<Word>, y: Triple<Word>, r: Triple<Word>, c: Triple<Word>, i: nat): bool
    requires i < 31
    decreases i, 1
  {
    NextCarry(PairBit(Opened(x, e + 1), i), PairBit(Opened(y, e + 1), i), Pair(r.At(e + 1)[i], false),
              Pair(c.At(e + 1)[i], OtherCarry(e, x, y, r, c, i))) != c.At(e + 1)[i + 1]
  }

  function PatchAdd(e: nat, x: Triple<Word>, y: Triple<Word>, r: Triple<Word>, c: Triple<Word>): (w: Word)
    ensures forall i :: 0 <= i < 31 ==> w[i] == PatchBit(e, x, y, r, c, i)
  {
    seq(32, i requires 0 <= i < 32 => if i < 31 then PatchBit(e, x, y, r, c, i) else r.At(e + 2)[31])
  }

  function OtherCarries(e: nat, x: Triple<Word>, y: Triple<Word>, r: Triple<Word>, c: Triple<Word>): (o: Word)
    ensures forall i :: 0 <= i < 32 ==> o[i] == OtherCarry(e, x, y, r, c, i)
  {
    seq(32, i requires 0 <= i < 32 => OtherCarry(e, x, y, r, c, i))
  }

  lemma NextCarryTape(x: Pair<bool>, y: Pair<bool>, r: Pair<bool>, c: Pair<bool>)
    ensures NextCarry(x, y, r, c) == (NextCarry(x, y, Pair(r.own, false), c) != r.next)
  {}

  lemma ChecksFrom(e: nat, x: Triple<Word>, y: Triple<Word>, r: Triple<Word>, c: Triple<Word>)
    requires e < 3
    requires AddCheck(Opened(x, e), Opened(y, e), Opened(r, e), Opened(c, e))
    requires AddCheck(Opened(x, e + 1), Opened(y, e + 1), Opened(r, e + 1), Opened(c, e + 1))
    requires AddCheck(Opened(x, e + 2), Opened(y, e + 2), Opened(r, e + 2), Opened(c, e + 2))
    ensures AddChecks(x, y, r, c)
  {
    hide AddCheck;
    if e == 0 {} else if e == 1 {} else {}
  }

  lemma ChecksAt(e: nat, x: Triple<Word>, y: Triple<Word>, r: Triple<Word>, c: Triple<Word>)
    requires e < 3 && AddChecks(x, y, r, c)
    ensures AddCheck(Opened(x, e), Opened(y, e), Opened(r, e), Opened(c, e))
    ensures AddCheck(Opened(x, e + 1), Opened(y, e + 1), Opened(r, e + 1), Opened(c, e + 1))
  {
    hide AddCheck;
    if e == 0 {} else if e == 1 {} else {}
  }

  lemma PutAt<T>(t: Triple<T>, e: nat, v: T)
    requires e < 3
    ensures var q := Put(t, e + 2, v);
      q.At(e) == t.At(e) && q.At(e + 1) == t.At(e + 1) && q.At(e + 2) == v && q.At(e + 3) == t.At(e)
    ensures t.At(e + 3) == t.At(e)
  {
    if e == 0 {} else if e == 1 {} else {}
  }

  /** The patched run of an ADD gate keeps the carries of the opened parties. */
  lemma PatchedCarries(e: nat, x1: Triple<Word>, y1: Triple<Word>, x2: Triple<Word>, y2: Triple<Word>, r: Triple<Word>)
    requires e < 3 && Agree(e, x1, x2) && Agree(e, y1, y2)
    ensures var c := AddCarries(x1, y1, r, NO_CARRY);
      AddCarries(x2, y2, Put(r, e + 2, PatchAdd(e, x2, y2, r, c)), NO_CARRY)
        == Put(c, e + 2, OtherCarries(e, x2, y2, r, c))
  {
    hide AddCarries, NextCarry, PatchAdd, OtherCarries, AddChecks, Put;
    var c := AddCarries(x1, y1, r, NO_CARRY);
    var w, o := PatchAdd(e, x2, y2, r, c), OtherCarries(e, x2, y2, r, c);
    var s, d := Put(r, e + 2, w), Put(c, e + 2, o);
    PutAt(r, e, w);
    PutAt(c, e, o);
    PutAt(x2, e, x2.p0);
    PutAt(y2, e, y2.p0);
    CarriesPassChecks(x1, y1, r, NO_CARRY);
    ChecksAt(e, x1, y1, r, c);
    assert AddCheck(Opened(x2, e), Opened(y2, e), Opened(s, e), Opened(d, e));
    var e1, e2 := e + 1, e + 2;
    forall i | 0 <= i < 31
      ensures CarryStep(Opened(x2, e1), Opened(y2, e1), Opened(s, e1), Opened(d, e1), i)
      ensures CarryStep(Opened(x2, e2), Opened(y2, e2), Opened(s, e2), Opened(d, e2), i)
    {
      NextCarryTape(PairBit(Opened(x2, e1), i), PairBit(Opened(y2, e1), i),
                    Pair(r.At(e1)[i], PatchBit(e, x2, y2, r, c, i)),
                    Pair(c.At(e1)[i], OtherCarry(e, x2, y2, r, c, i)));
      assert o[i + 1] == OtherCarry(e, x2, y2, r, c, i + 1);
    }
    ChecksFrom(e, x2, y2, s, d);
    PatchedLow(e, c, o);
    ChecksForceWords(x2, y2, s, d);
  }

  lemma PatchedLow(e: nat, c: Triple<Word>, o: Word)
    requires TripleBit(c, 0) == NO_CARRY && !o[0]
    ensures TripleBit(Put(c, e + 2, o), 0) == NO_CARRY
  {}

  // ----- two runs in lockstep

  /** A value of the first run and of the patched run. */
  datatype Twin = Twin(first: Triple<Word>, second: Triple<Word>)

  /** Both recordings, and the patched tape of the third party so far. */
  datatype Coupled = Coupled(first: Recorded, second: Recorded, tape: seq<Word>)

  const UNCOUPLED := Coupled(NOTHING, NOTHING, [])

  function CoupledAdd(e: nat, tapes: Tapes, s: Coupled, x: Twin, y: Twin): (Coupled, Twin) {
    var r := TapeWords(tapes, |s.tape|);
    var c := AddCarries(x.first, y.first, r, NO_CARRY);
    var w := PatchAdd(e, x.second, y.second, r, c);
    var d := AddCarries(x.second, y.second, Put(r, e + 2, w), NO_CARRY);
    (Coupled(Recorded(s.first.ys + [c], s.first.adds + [true]), Recorded(s.second.ys + [d], s.second.adds + [true]),
             s.tape + [w]),
     Twin(SumShares(x.first, y.first, c), SumShares(x.second, y.second, d)))
  }

  function CoupledAnd(e: nat, tapes: Tapes, s: Coupled, x: Twin, y: Twin): (Coupled, Twin) {
    var r := TapeWords(tapes, |s.tape|);
    var c := AndShares(x.first, y.first, r);
    var w := PatchAnd(e, x.second, y.second, r, c);
    var d := AndShares(x.second, y.second, Put(r, e + 2, w));
    (Coupled(Recorded(s.first.ys + [c], s.first.adds + [false]), Recorded(s.second.ys + [d], s.second.adds + [false]),
             s.tape + [w]),
     Twin(c, d))
  }

  function CoupledGates(e: nat, tapes: Tapes): Gates<Coupled, Twin> {
    Gates((s: Coupled, x: Twin, y: Twin) => CoupledAdd(e, tapes, s, x, y),
          (s: Coupled, x: Twin, y: Twin) => CoupledAnd(e, tapes, s, x, y),
          (x: Twin, y: Twin) => Twin(XorShares(x.first, y.first), XorShares(x.second, y.second)),
          (x: Twin, n: nat) => Twin(RotrShares(x.first, n), RotrShares(x.second, n)),
          (x: Twin, n: nat) => Twin(ShrShares(x.first, n), ShrShares(x.second, n)),
          (c: Word) => Twin(Triple(c, c, c), Triple(c, c, c)))
  }

  /** The opened views recorded so far are the same. */
  ghost predicate SameViews(e: nat, s: seq<Triple<Word>>, t: seq<Triple<Word>>) {
    |s| == |t| && forall i :: 0 <= i < |s| ==> Agree(e, s[i], t[i])
  }

  ghost predicate FirstStates(e: nat, s: Coupled, p: Recorded) {
    s.first == p && |s.tape| == |p.ys| && SameViews(e, s.first.ys, s.second.ys)
  }

  ghost predicate FirstValues(e: nat, x: Twin, y: Triple<Word>) {
    x.first == y && Agree(e, x.first, x.second)
  }

  ghost function First(e: nat, tapes: Tapes): Sim<Coupled, Twin, Recorded, Triple<Word>> {
    Sim(CoupledGates(e, tapes), ProveGates(tapes, []),
        (s, p) => true, (s: Coupled, p: Recorded) => FirstStates(e, s, p),
        (x: Twin, y: Triple<Word>) => FirstValues(e, x, y))
  }

  lemma FirstAdd(e: nat, tapes: Tapes, s: Coupled, p: Recorded, x: Twin, y: Twin)
    requires e < 3 && FirstStates(e, s, p) && FirstValues(e, x, x.first) && FirstValues(e, y, y.first)
    ensures FirstStates(e, CoupledAdd(e, tapes, s, x, y).0, ProveAdd(tapes, [], p, x.first, y.first).0)
    ensures FirstValues(e, CoupledAdd(e, tapes, s, x, y).1, ProveAdd(tapes, [], p, x.first, y.first).1)
  {
    hide AddCarries, PatchAdd, Put, OtherCarries, Xor;
    var r := TapeWords(tapes, |s.tape|);
    var c := AddCarries(x.first, y.first, r, NO_CARRY);
    PatchedCarries(e, x.first, y.first, x.second, y.second, r);
    PutAt(c, e, OtherCarries(e, x.second, y.second, r, c));
    SumSharesAgree(e, x.first, y.first, c, x.second, y.second,
                   Put(c, e + 2, OtherCarries(e, x.second, y.second, r, c)));
  }

  lemma SumSharesAgree(e: nat, x1: Triple<Word>, y1: Triple<Word>, c1: Triple<Word>,
                       x2: Triple<Word>, y2: Triple<Word>, c2: Triple<Word>)
    requires e < 3 && Agree(e, x1, x2) && Agree(e, y1, y2) && Agree(e, c1, c2)
    ensures Agree(e, SumShares(x1, y1, c1), SumShares(x2, y2, c2))
  {
    hide Xor;
    if e == 0 {} else if e == 1 {} else {}
  }

  lemma LinearAgree(e: nat, x1: Triple<Word>, y1: Triple<Word>, x2: Triple<Word>, y2: Triple<Word>, n: nat)
    requires e < 3 && Agree(e, x1, x2)
    ensures Agree(e, y1, y2) ==> Agree(e, XorShares(x1, y1), XorShares(x2, y2))
    ensures Agree(e, RotrShares(x1, n), RotrShares(x2, n))
    ensures Agree(e, ShrShares(x1, n), ShrShares(x2, n))
  {
    hide Xor, Rotr, Shr;
    if e == 0 {} else if e == 1 {} else {}
  }

  lemma FirstAnd(e: nat, tapes: Tapes, s: Coupled, p: Recorded, x: Twin, y: Twin)
    requires e < 3 && FirstStates(e, s, p) && FirstValues(e, x, x.first) && FirstValues(e, y, y.first)
    ensures FirstStates(e, CoupledAnd(e, tapes, s, x, y).0, ProveAnd(tapes, p, x.first, y.first).0)
    ensures FirstValues(e, CoupledAnd(e, tapes, s, x, y).1, ProveAnd(tapes, p, x.first, y.first).1)
  {
    hide AndShares, PatchAnd, Put;
    PatchedAnd(e, x.first, y.first, x.second, y.second, TapeWords(tapes, |s.tape|));
  }

  lemma FirstSimulates(e: nat, tapes: Tapes)
    requires e < 3
    ensures Simulates(First(e, tapes))
  {
    var m := First(e, tapes);
    hide FirstStates, CoupledAdd, CoupledAnd, ProveAdd, ProveAnd, XorShares, RotrShares, ShrShares, Agree;
    forall s1, s2, x1, x2, y1, y2
      ensures Step(m, s1, s2, x1, x2, y1, y2, m.g1.add(s1, x1, y1), m.g2.add(s2, x2, y2))
    {
      if m.states(s1, s2) && m.values(x1, x2) && m.values(y1, y2) { FirstAdd(e, tapes, s1, s2, x1, y1); }
    }
    forall s1, s2, x1, x2, y1, y2
      ensures Step(m, s1, s2, x1, x2, y1, y2, m.g1.and(s1, x1, y1), m.g2.and(s2, x2, y2))
    {
      if m.states(s1, s2) && m.values(x1, x2) && m.values(y1, y2) { FirstAnd(e, tapes, s1, s2, x1, y1); }
    }
    forall x1, x2, y1, y2 | m.values(x1, x2) && m.values(y1, y2)
      ensures m.values(m.g1.xor(x1, y1), m.g2.xor(x2, y2))
    {
      LinearAgree(e, x1.first, y1.first, x1.second, y1.second, 0);
    }
    forall x1, x2, n | m.values(x1, x2)
      ensures m.values(m.g1.rotr(x1, n), m.g2.rotr(x2, n))
      ensures m.values(m.g1.shr(x1, n), m.g2.shr(x2, n))
    {
      LinearAgree(e, x1.first, x1.first, x1.second, x1.second, n);
    }
    forall c ensures m.values(m.g1.lift(c), m.g2.lift(c)) { AgreeRefl(e, Triple(c, c, c)); }
  }

  lemma AgreeRefl(e: nat, t: Triple<Word>)
    ensures Agree(e, t, t)
  {}

  // ----- the patched run is an honest run under the patched tape

  ghost predicate SecondStates(s: Coupled, p: Recorded) { s.second == p && |s.tape| == |p.ys| }

  ghost function Second(e: nat, tapes: Tapes, tape: seq<Word>): Sim<Coupled, Twin, Recorded, Triple<Word>> {
    Sim(CoupledGates(e, tapes), ProveGates(Put(tapes, e + 2, tape), []),
        (s: Coupled, p: Recorded) => s.tape <= tape, (s: Coupled, p: Recorded) => SecondStates(s, p),
        (x: Twin, y: Triple<Word>) => x.second == y)
  }

  lemma PatchedTapeWords(e: nat, tapes: Tapes, tape: seq<Word>, i: nat)
    requires e < 3 && i < |tape|
    ensures TapeWords(Put(tapes, e + 2, tape), i) == Put(TapeWords(tapes, i), e + 2, tape[i])
  {
    if e == 0 {} else if e == 1 {} else {}
  }

  lemma PrefixExtended(s: seq<Word>, w: Word, tape: seq<Word>)
    requires s + [w] <= tape
    ensures s <= tape && |s| < |tape| && tape[|s|] == w
  {
    assert (s + [w])[|s|] == w;
    assert forall i :: 0 <= i < |s| ==> (s + [w])[i] == s[i];
  }

  lemma SecondSimulates(e: nat, tapes: Tapes, tape: seq<Word>)
    requires e < 3
    ensures Simulates(Second(e, tapes, tape))
  {
    var m := Second(e, tapes, tape);
    hide AddCarries, PatchAdd, PatchAnd, AndShares, SumShares, TapeWords, Put, XorShares, RotrShares, ShrShares;
    forall s1, s2, x1, x2, y1, y2
      ensures Step(m, s1, s2, x1, x2, y1, y2, m.g1.add(s1, x1, y1), m.g2.add(s2, x2, y2))
    {
      var w := PatchAdd(e, x1.second, y1.second, TapeWords(tapes, |s1.tape|),
                        AddCarries(x1.first, y1.first, TapeWords(tapes, |s1.tape|), NO_CARRY));
      if s1.tape + [w] <= tape {
        PrefixExtended(s1.tape, w, tape);
        PatchedTapeWords(e, tapes, tape, |s1.tape|);
      }
    }
    forall s1, s2, x1, x2, y1, y2
      ensures Step(m, s1, s2, x1, x2, y1, y2, m.g1.and(s1, x1, y1), m.g2.and(s2, x2, y2))
    {
      var w := PatchAnd(e, x1.second, y1.second, TapeWords(tapes, |s1.tape|),
                        AndShares(x1.first, y1.first, TapeWords(tapes, |s1.tape|)));
      if s1.tape + [w] <= tape {
        PrefixExtended(s1.tape, w, tape);
        PatchedTapeWords(e, tapes, tape, |s1.tape|);
      }
    }
  }

  // ----- whole runs

  function TwinChunks(x: Triple<seq<Byte>>, y: Triple<seq<Byte>>): (c: seq<seq<Twin>>)
    requires SameLength(x) && SameLength(y) && |x.p0| == |y.p0|
    ensures |c| == NumBlocks(|x.p0|) && forall i :: 0 <= i < |c| ==> |c[i]| == 16
  {
    var c1, c2 := ShareChunks(x), ShareChunks(y);
    seq(|c1|, i requires 0 <= i < |c1| => seq(16, j requires 0 <= j < 16 => Twin(c1[i][j], c2[i][j])))
  }

  function CoupledRun(e: nat, x: Triple<seq<Byte>>, y: Triple<seq<Byte>>, tapes: Tapes): (Coupled, Sha256.Vars<Twin>)
    requires SameLength(x) && SameLength(y) && |x.p0| == |y.p0|
  {
    var g := CoupledGates(e, tapes);
    Blocks(g, UNCOUPLED, LiftVars(g, Sha256.H0), Sha256.K, TwinChunks(x, y), NumBlocks(|x.p0|))
  }

  lemma ChunkAgrees(e: nat, x: Triple<seq<Byte>>, y: Triple<seq<Byte>>, i: nat, j: nat)
    requires e < 3 && SameLength(x) && SameLength(y) && |x.p0| == |y.p0| && Agree(e, x, y)
    requires i < NumBlocks(|x.p0|) && j < 16
    ensures Agree(e, ShareChunks(x)[i][j], ShareChunks(y)[i][j])
  {
    hide Chunks;
    if e == 0 {} else if e == 1 {} else {}
  }

  function FirstVars(v: Sha256.Vars<Twin>): Sha256.Vars<Triple<Word>> {
    Sha256.Vars(v.a.first, v.b.first, v.c.first, v.d.first, v.e.first, v.f.first, v.g.first, v.h.first)
  }

  function SecondVars(v: Sha256.Vars<Twin>): Sha256.Vars<Triple<Word>> {
    Sha256.Vars(v.a.second, v.b.second, v.c.second, v.d.second, v.e.second, v.f.second, v.g.second, v.h.second)
  }

  /** The opened parties hold the same eight words. */
  ghost predicate AgreeVars(e: nat, v: Sha256.Vars<Triple<Word>>, u: Sha256.Vars<Triple<Word>>) {
    && Agree(e, v.a, u.a) && Agree(e, v.b, u.b) && Agree(e, v.c, u.c) && Agree(e, v.d, u.d)
    && Agree(e, v.e, u.e) && Agree(e, v.f, u.f) && Agree(e, v.g, u.g) && Agree(e, v.h, u.h)
  }

  lemma FirstBlocks(e: nat, x: Triple<seq<Byte>>, y: Triple<seq<Byte>>, tapes: Tapes, h: Sha256.Vars<Word>,
                    k: seq<Word>)
    requires e < 3 && SameLength(x) && SameLength(y) && |x.p0| == |y.p0| && Agree(e, x, y) && |k| == 64
    ensures var m, n := First(e, tapes), NumBlocks(|x.p0|);
      var r := Blocks(m.g1, UNCOUPLED, LiftVars(m.g1, h), k, TwinChunks(x, y), n);
      var p := Blocks(m.g2, NOTHING, LiftVars(m.g2, h), k, ShareChunks(x), n);
      FirstStates(e, r.0, p.0) && SameVars(m, r.1, p.1)
  {
    hide Blocks, ShareChunks, NumBlocks, Simulates, Agree, SameViews;
    var m := First(e, tapes);
    FirstSimulates(e, tapes);
    var c, d := TwinChunks(x, y), ShareChunks(x);
    forall i, j | 0 <= i < |d| && 0 <= j < 16 ensures m.values(c[i][j], d[i][j]) {
      ChunkAgrees(e, x, y, i, j);
    }
    forall t: Triple<Word> ensures Agree(e, t, t) { AgreeRefl(e, t); }
    assert SameViews(e, [], []) by { SameViewsNothing(e); }
    SimulateBlocks(m, UNCOUPLED, NOTHING, LiftVars(m.g1, h), LiftVars(m.g2, h), k, c, d, NumBlocks(|x.p0|));
  }

  lemma FirstRun(e: nat, x: Triple<seq<Byte>>, y: Triple<seq<Byte>>, tapes: Tapes)
    requires e < 3 && SameLength(x) && SameLength(y) && |x.p0| == |y.p0| && Agree(e, x, y)
    ensures var r, p := CoupledRun(e, x, y, tapes), ProverRun(x, tapes, []);
      FirstStates(e, r.0, p.0) && FirstVars(r.1) == p.1 && AgreeVars(e, p.1, SecondVars(r.1))
  {
    hide Blocks, ShareChunks, TwinChunks, NumBlocks, Agree, FirstStates, LiftVars;
    FirstBlocks(e, x, y, tapes, Sha256.H0, Sha256.K);
  }

  lemma SecondBlocks(e: nat, x: Triple<seq<Byte>>, y: Triple<seq<Byte>>, tapes: Tapes, tape: seq<Word>,
                     h: Sha256.Vars<Word>, k: seq<Word>)
    requires e < 3 && SameLength(x) && SameLength(y) && |x.p0| == |y.p0| && |k| == 64
    ensures var m, n := Second(e, tapes, tape), NumBlocks(|x.p0|);
      var r := Blocks(m.g1, UNCOUPLED, LiftVars(m.g1, h), k, TwinChunks(x, y), n);
      var p := Blocks(m.g2, NOTHING, LiftVars(m.g2, h), k, ShareChunks(y), n);
      r.0.tape <= tape ==> SecondStates(r.0, p.0) && SameVars(m, r.1, p.1)
  {
    hide Blocks, ShareChunks, NumBlocks, Simulates, Put;
    var m, n := Second(e, tapes, tape), NumBlocks(|x.p0|);
    SecondSimulates(e, tapes, tape);
    if Blocks(m.g1, UNCOUPLED, LiftVars(m.g1, h), k, TwinChunks(x, y), n).0.tape <= tape {
      SimulateBlocks(m, UNCOUPLED, NOTHING, LiftVars(m.g1, h), LiftVars(m.g2, h), k, TwinChunks(x, y), ShareChunks(y),
                     n);
    }
  }

  lemma SameViewsNothing(e: nat)
    ensures SameViews(e, [], [])
  {}

  lemma SecondRun(e: nat, x: Triple<seq<Byte>>, y: Triple<seq<Byte>>, tapes: Tapes)
    requires e < 3 && SameLength(x) && SameLength(y) && |x.p0| == |y.p0|
    ensures var r := CoupledRun(e, x, y, tapes);
      var p := ProverRun(y, Put(tapes, e + 2, r.0.tape), []);
      SecondStates(r.0, p.0) && SecondVars(r.1) == p.1
  {
    hide Blocks, ShareChunks, TwinChunks, NumBlocks, Put, SecondStates, LiftVars;
    SecondBlocks(e, x, y, tapes, CoupledRun(e, x, y, tapes).0.tape, Sha256.H0, Sha256.K);
  }

  /** Two-view privacy: if y agrees with x on the shares of parties e and e+1, the third party has a
      tape under which the run on y records the same two views and the same two output shares. */
  lemma TwoViewPrivacy(e: nat, x: Triple<seq<Byte>>, y: Triple<seq<Byte>>, tapes: Tapes) returns (tape: seq<Word>)
    requires e < 3 && SameLength(x) && SameLength(y) && |x.p0| == |y.p0| && Agree(e, x, y)
    ensures |tape| == GATES_PER_BLOCK * NumBlocks(|x.p0|)
    ensures var p, q := ProverRun(x, tapes, []), ProverRun(y, Put(tapes, e + 2, tape), []);
      SameViews(e, p.0.ys, q.0.ys) && AgreeVars(e, p.1, q.1)
  {
    hide ProverRun, CoupledRun, SameViews, AgreeVars, NumBlocks;
    var r := CoupledRun(e, x, y, tapes);
    tape := r.0.tape;
    FirstRun(e, x, y, tapes);
    SecondRun(e, x, y, tapes);
    ProverBudget(x, tapes, []);
  }

  /** If both inputs have the same digest, the published output shares are the same too. */
  lemma PublishedSharesAgree(e: nat, v: Sha256.Vars<Triple<Word>>, u: Sha256.Vars<Triple<Word>>)
    requires e < 3 && AgreeVars(e, v, u) && OpenVars(v) == OpenVars(u)
    ensures v == u
  {
    hide Xor3;
    ThirdShareForced(e, v.a, u.a);
    ThirdShareForced(e, v.b, u.b);
    ThirdShareForced(e, v.c, u.c);
    ThirdShareForced(e, v.d, u.d);
    ThirdShareForced(e, v.e, u.e);
    ThirdShareForced(e, v.f, u.f);
    ThirdShareForced(e, v.g, u.g);
    ThirdShareForced(e, v.h, u.h);
  }

  lemma ThirdShareForced(e: nat, s: Triple<Word>, t: Triple<Word>)
    requires e < 3 && Agree(e, s, t) && Xor3(s) == Xor3(t)
    ensures s == t
  {
    forall i | 0 <= i < 32 ensures s.p0[i] == t.p0[i] && s.p1[i] == t.p1[i] && s.p2[i] == t.p2[i] {
      assert Xor3(s)[i] == Xor3(t)[i];
    }
    assert s.p0 == t.p0 && s.p1 == t.p1 && s.p2 == t.p2;
  }

  /** Same digest, same three output shares: nothing the prover publishes tells the inputs apart. */
  lemma PublishedOutputsHide(e: nat, x: Triple<seq<Byte>>, y: Triple<seq<Byte>>, tapes: Tapes) returns (tape: seq<Word>)
    requires e < 3 && SameLength(x) && SameLength(y) && |x.p0| == |y.p0| && Agree(e, x, y)
    requires Sha256.Hash(Sha256.BitString(XorBytes3(x))) == Sha256.Hash(Sha256.BitString(XorBytes3(y)))
    ensures |tape| == GATES_PER_BLOCK * NumBlocks(|x.p0|)
    ensures var p, q := ProverRun(x, tapes, []), ProverRun(y, Put(tapes, e + 2, tape), []);
      SameViews(e, p.0.ys, q.0.ys) && p.1 == q.1
  {
    hide ProverRun, SameViews, AgreeVars, NumBlocks, OpenVars, XorBytes3;
    tape := TwoViewPrivacy(e, x, y, tapes);
    ProverRefinesSha256(x, tapes);
    ProverRefinesSha256(y, Put(tapes, e + 2, tape));
    PublishedSharesAgree(e, ProverRun(x, tapes, []).1, ProverRun(y, Put(tapes, e + 2, tape), []).1);
  }

  // ----- the patched tape is unique up to bit 31 of the words of ADD gates

  /** The bits of a tape word that a gate uses agree. */
  ghost predicate SameUsed(isAdd: bool, v: Word, w: Word) {
    if isAdd then v[..31] == w[..31] else v == w
  }

  lemma AndTapeForced(e: nat, x: Triple<Word>, y: Triple<Word>, r: Triple<Word>, s: Triple<Word>)
    requires e < 3 && Agree(e, r, s) && AndShares(x, y, r).At(e + 1) == AndShares(x, y, s).At(e + 1)
    ensures r == s
  {
    AndSharesAt(e, x, y, r);
    AndSharesAt(e, x, y, s);
    var a, b, t := Opened(x, e + 1), Opened(y, e + 1), AndShares(x, y, r).At(e + 1);
    var v, w := r.At(e + 2), s.At(e + 2);
    assert v == w by {
      hide AndShares, AndShare;
      forall i | 0 <= i < 32 ensures v[i] == w[i] {
        AndTapeBit(a, b, Opened(r, e + 1), Opened(s, e + 1), i);
      }
    }
    if e == 0 {} else if e == 1 {} else {}
  }

  lemma AndTapeBit(x: Pair<Word>, y: Pair<Word>, r: Pair<Word>, s: Pair<Word>, i: nat)
    requires i < 32 && r.own == s.own && AndShare(x, y, r) == AndShare(x, y, s)
    ensures r.next[i] == s.next[i]
  {
    assert AndShare(x, y, r)[i] == AndBit(x, y, r, i);
    assert AndShare(x, y, s)[i] == AndBit(x, y, s, i);
  }

  lemma {:induction false} AddTapeForced(e: nat, x: Triple<Word>, y: Triple<Word>, r: Triple<Word>, s: Triple<Word>,
                                         i: nat)
    requires e < 3 && i < 32 && Agree(e, r, s)
    requires AddCarries(x, y, r, NO_CARRY).At(e + 1) == AddCarries(x, y, s, NO_CARRY).At(e + 1)
    ensures TripleBit(AddCarries(x, y, r, NO_CARRY), i) == TripleBit(AddCarries(x, y, s, NO_CARRY), i)
    ensures r.At(e + 2)[..i] == s.At(e + 2)[..i]
  {
    hide AddCarries, NextCarries, CarryAt;
    var c, d := AddCarries(x, y, r, NO_CARRY), AddCarries(x, y, s, NO_CARRY);
    if i == 0 {
      CarriesPassChecks(x, y, r, NO_CARRY);
      CarriesPassChecks(x, y, s, NO_CARRY);
    } else {
      AddTapeForced(e, x, y, r, s, i - 1);
      CarriesStep(x, y, r, NO_CARRY, i - 1);
      CarriesStep(x, y, s, NO_CARRY, i - 1);
      TripleBitAt(e, r, s, i - 1);
      TapeBitForced(e, TripleBit(x, i - 1), TripleBit(y, i - 1), TripleBit(r, i - 1), TripleBit(s, i - 1),
                    TripleBit(c, i - 1));
      TripleBitAt(e, c, d, i);
      var v, w := r.At(e + 2), s.At(e + 2);
      assert v[..i] == v[..i - 1] + [v[i - 1]] && w[..i] == w[..i - 1] + [w[i - 1]];
    }
  }

  lemma TripleBitAt(e: nat, r: Triple<Word>, s: Triple<Word>, i: nat)
    requires e < 3 && i < 32
    ensures TripleBit(r, i).At(e) == r.At(e)[i] && TripleBit(s, i).At(e) == s.At(e)[i]
    ensures TripleBit(r, i).At(e + 1) == r.At(e + 1)[i] && TripleBit(s, i).At(e + 1) == s.At(e + 1)[i]
    ensures TripleBit(r, i).At(e + 2) == r.At(e + 2)[i] && TripleBit(s, i).At(e + 2) == s.At(e + 2)[i]
  {
    if e == 0 {} else if e == 1 {} else {}
  }

  lemma TapeBitForced(e: nat, x: Triple<bool>, y: Triple<bool>, r: Triple<bool>, s: Triple<bool>, c: Triple<bool>)
    requires e < 3
    requires Agree(e, r, s)
    ensures NextCarries(x, y, r, c).At(e + 1) == NextCarries(x, y, s, c).At(e + 1) ==> r == s
  {
    hide NextCarry;
    var f := e + 1;
    NextCarryTape(Opened(x, f), Opened(y, f), Opened(r, f), Opened(c, f));
    NextCarryTape(Opened(x, f), Opened(y, f), Opened(s, f), Opened(c, f));
    if e == 0 {} else if e == 1 {} else {}
  }

  /** Two tapes of the third party, the same inputs, and the same recorded words of party e+1. */
  ghost predicate SameNext(e: nat, p: Recorded, q: Recorded) {
    |p.ys| == |q.ys| && forall i :: 0 <= i < |p.ys| ==> p.ys[i].At(e + 1) == q.ys[i].At(e + 1)
  }

  /** The recordings coincide and every tape word used so far agrees on the bits its gate uses. */
  ghost predicate TapesUsed(e: nat, r: Tapes, s: Tapes, p: Recorded, q: Recorded) {
    p == q && |p.adds| == |p.ys|
    && forall i :: 0 <= i < |p.adds| ==> SameUsed(p.adds[i], TapeWord(r.At(e + 2), i), TapeWord(s.At(e + 2), i))
  }

  ghost function Retaping(e: nat, r: Tapes, s: Tapes): Sim<Recorded, Triple<Word>, Recorded, Triple<Word>> {
    Sim(ProveGates(r, []), ProveGates(s, []), (p: Recorded, q: Recorded) => SameNext(e, p, q),
        (p: Recorded, q: Recorded) => TapesUsed(e, r, s, p, q), (x: Triple<Word>, y: Triple<Word>) => x == y)
  }

  lemma TapeWordsAt(e: nat, r: Tapes, i: nat)
    requires e < 3
    ensures TapeWords(r, i).At(e) == TapeWord(r.At(e), i)
    ensures TapeWords(r, i).At(e + 1) == TapeWord(r.At(e + 1), i)
    ensures TapeWords(r, i).At(e + 2) == TapeWord(r.At(e + 2), i)
  {
    hide TapeWord;
    if e == 0 {} else if e == 1 {} else {}
  }

  lemma SameNextBefore(e: nat, p: Recorded, q: Recorded, c: Triple<Word>, d: Triple<Word>, k: bool)
    requires SameNext(e, Recorded(p.ys + [c], p.adds + [k]), Recorded(q.ys + [d], q.adds + [k]))
    ensures SameNext(e, p, q) && c.At(e + 1) == d.At(e + 1)
  {
    var s, t := p.ys + [c], q.ys + [d];
    assert s[|p.ys|] == c && t[|p.ys|] == d;
    assert forall i :: 0 <= i < |p.ys| ==> s[i] == p.ys[i] && t[i] == q.ys[i];
  }

  lemma CarriesEqual(e: nat, x: Triple<Word>, y: Triple<Word>, r: Triple<Word>, s: Triple<Word>)
    requires e < 3 && Agree(e, r, s)
    requires AddCarries(x, y, r, NO_CARRY).At(e + 1) == AddCarries(x, y, s, NO_CARRY).At(e + 1)
    ensures AddCarries(x, y, r, NO_CARRY) == AddCarries(x, y, s, NO_CARRY)
    ensures r.At(e + 2)[..31] == s.At(e + 2)[..31]
  {
    hide AddCarries;
    var c, d := AddCarries(x, y, r, NO_CARRY), AddCarries(x, y, s, NO_CARRY);
    forall i | 0 <= i < 32 ensures c.p0[i] == d.p0[i] && c.p1[i] == d.p1[i] && c.p2[i] == d.p2[i] {
      AddTapeForced(e, x, y, r, s, i);
      assert TripleBit(c, i) == TripleBit(d, i);
    }
    AddTapeForced(e, x, y, r, s, 31);
    assert c.p0 == d.p0 && c.p1 == d.p1 && c.p2 == d.p2;
  }

  lemma UsedExtended(e: nat, r: Tapes, s: Tapes, p: Recorded, c: Triple<Word>, k: bool)
    requires TapesUsed(e, r, s, p, p)
    requires SameUsed(k, TapeWord(r.At(e + 2), |p.ys|), TapeWord(s.At(e + 2), |p.ys|))
    ensures TapesUsed(e, r, s, Recorded(p.ys + [c], p.adds + [k]), Recorded(p.ys + [c], p.adds + [k]))
  {
    hide SameUsed, TapeWord;
  }

  lemma RetapingSimulates(e: nat, r: Tapes, s: Tapes)
    requires e < 3 && Agree(e, r, s)
    ensures Simulates(Retaping(e, r, s))
  {
    var m := Retaping(e, r, s);
    hide AddCarries, SumShares, AndShares, TapeWords, SameNext, TapesUsed, XorShares, RotrShares, ShrShares;
    forall s1, s2, x1, x2, y1, y2
      ensures Step(m, s1, s2, x1, x2, y1, y2, m.g1.add(s1, x1, y1), m.g2.add(s2, x2, y2))
    {
      var c := AddCarries(x1, y1, TapeWords(r, |s1.ys|), NO_CARRY);
      var d := AddCarries(x2, y2, TapeWords(s, |s2.ys|), NO_CARRY);
      if m.good(m.g1.add(s1, x1, y1).0, m.g2.add(s2, x2, y2).0) {
        SameNextBefore(e, s1, s2, c, d, true);
        if m.states(s1, s2) && x1 == x2 && y1 == y2 {
          SameRecorded(e, r, s, s1, s2);
          TapeWordsAt(e, r, |s1.ys|);
          TapeWordsAt(e, s, |s1.ys|);
          CarriesEqual(e, x1, y1, TapeWords(r, |s1.ys|), TapeWords(s, |s1.ys|));
          UsedExtended(e, r, s, s1, c, true);
        }
      }
    }
    forall s1, s2, x1, x2, y1, y2
      ensures Step(m, s1, s2, x1, x2, y1, y2, m.g1.and(s1, x1, y1), m.g2.and(s2, x2, y2))
    {
      var c := AndShares(x1, y1, TapeWords(r, |s1.ys|));
      var d := AndShares(x2, y2, TapeWords(s, |s2.ys|));
      if m.good(m.g1.and(s1, x1, y1).0, m.g2.and(s2, x2, y2).0) {
        SameNextBefore(e, s1, s2, c, d, false);
        if m.states(s1, s2) && x1 == x2 && y1 == y2 {
          SameRecorded(e, r, s, s1, s2);
          TapeWordsAt(e, r, |s1.ys|);
          TapeWordsAt(e, s, |s1.ys|);
          AndTapeForced(e, x1, y1, TapeWords(r, |s1.ys|), TapeWords(s, |s1.ys|));
          UsedExtended(e, r, s, s1, c, false);
        }
      }
    }
  }

  lemma SameRecorded(e: nat, r: Tapes, s: Tapes, p: Recorded, q: Recorded)
    requires TapesUsed(e, r, s, p, q)
    ensures p == q
  {}

  lemma RetapedBlocks(e: nat, r: Tapes, s: Tapes, h: Sha256.Vars<Triple<Word>>, k: seq<Word>,
                      c: seq<seq<Triple<Word>>>, n: nat)
    requires e < 3 && Agree(e, r, s) && |k| == 64 && n <= |c| && forall i :: 0 <= i < |c| ==> |c[i]| == 16
    ensures var p := Blocks(ProveGates(r, []), NOTHING, h, k, c, n).0;
      var q := Blocks(ProveGates(s, []), NOTHING, h, k, c, n).0;
      SameNext(e, p, q) ==> TapesUsed(e, r, s, p, q)
  {
    hide Blocks, Simulates, SameNext, TapesUsed;
    RetapingSimulates(e, r, s);
    UsedNothing(e, r, s);
    SimulateEqual(Retaping(e, r, s), NOTHING, NOTHING, h, k, c, n);
  }

  lemma ProverLift(r: Tapes, s: Tapes)
    ensures LiftVars(ProveGates(r, []), Sha256.H0) == LiftVars(ProveGates(s, []), Sha256.H0)
  {}

  lemma RetapedRun(e: nat, x: Triple<seq<Byte>>, r: Tapes, s: Tapes)
    requires e < 3 && SameLength(x) && Agree(e, r, s)
    requires SameNext(e, ProverRun(x, r, []).0, ProverRun(x, s, []).0)
    ensures TapesUsed(e, r, s, ProverRun(x, r, []).0, ProverRun(x, s, []).0)
  {
    hide Blocks, ShareChunks, NumBlocks, LiftVars, SameNext, TapesUsed;
    ProverLift(r, s);
    RetapedBlocks(e, r, s, LiftVars(ProveGates(r, []), Sha256.H0), Sha256.K, ShareChunks(x), NumBlocks(|x.p0|));
  }

  lemma UsedNothing(e: nat, r: Tapes, s: Tapes)
    ensures TapesUsed(e, r, s, NOTHING, NOTHING)
  {}

  lemma RetapedForces(e: nat, x: Triple<seq<Byte>>, r: Tapes, s: Tapes)
    requires e < 3 && SameLength(x) && Agree(e, r, s)
    requires SameViews(e, ProverRun(x, r, []).0.ys, ProverRun(x, s, []).0.ys)
    ensures UsedAlike(e, r, s, GATES_PER_BLOCK * NumBlocks(|x.p0|))
  {
    hide ProverRun, NumBlocks, SameUsed, IsAddGate, TapeWord;
    var p, q := ProverRun(x, r, []).0, ProverRun(x, s, []).0;
    assert SameNext(e, p, q) by {
      assert forall i :: 0 <= i < |p.ys| ==> Agree(e, p.ys[i], q.ys[i]);
    }
    RetapedRun(e, x, r, s);
    ProverBudget(x, r, []);
  }

  // ----- no gate uses more

  /** The third party's tapes agree on every bit the first n gates use. */
  ghost predicate UsedAlike(e: nat, r: Tapes, s: Tapes, n: nat) {
    forall i :: 0 <= i < n ==> SameUsed(IsAddGate(i), TapeWord(r.At(e + 2), i), TapeWord(s.At(e + 2), i))
  }

  lemma {:induction false} CarryAtAlike(e: nat, x: Triple<Word>, y: Triple<Word>, r: Triple<Word>, s: Triple<Word>,
                                        i: nat)
    requires e < 3 && i < 32 && Agree(e, r, s) && r.At(e + 2)[..31] == s.At(e + 2)[..31]
    ensures CarryAt(x, y, r, NO_CARRY, i) == CarryAt(x, y, s, NO_CARRY, i)
  {
    hide NextCarries;
    if i > 0 {
      CarryAtAlike(e, x, y, r, s, i - 1);
      assert TripleBit(r, i - 1) == TripleBit(s, i - 1) by {
        TripleBitAt(e, r, s, i - 1);
        assert r.At(e + 2)[..31][i - 1] == s.At(e + 2)[..31][i - 1];
        if e == 0 {} else if e == 1 {} else {}
      }
    }
  }

  lemma CarriesAlike(e: nat, x: Triple<Word>, y: Triple<Word>, r: Triple<Word>, s: Triple<Word>)
    requires e < 3 && Agree(e, r, s) && r.At(e + 2)[..31] == s.At(e + 2)[..31]
    ensures AddCarries(x, y, r, NO_CARRY) == AddCarries(x, y, s, NO_CARRY)
  {
    hide AddCarries, CarryAt;
    var c, d := AddCarries(x, y, r, NO_CARRY), AddCarries(x, y, s, NO_CARRY);
    forall i | 0 <= i < 32 ensures c.p0[i] == d.p0[i] && c.p1[i] == d.p1[i] && c.p2[i] == d.p2[i] {
      CarryAtAlike(e, x, y, r, s, i);
      assert TripleBit(c, i) == TripleBit(d, i);
    }
    assert c.p0 == d.p0 && c.p1 == d.p1 && c.p2 == d.p2;
  }

  ghost predicate AlikeSoFar(e: nat, r: Tapes, s: Tapes, p: Recorded) {
    |p.adds| == |p.ys|
    && forall i :: 0 <= i < |p.adds| ==> SameUsed(p.adds[i], TapeWord(r.At(e + 2), i), TapeWord(s.At(e + 2), i))
  }

  ghost function Ignoring(e: nat, r: Tapes, s: Tapes): Sim<Recorded, Triple<Word>, Recorded, Triple<Word>> {
    Sim(ProveGates(r, []), ProveGates(s, []), (p: Recorded, q: Recorded) => AlikeSoFar(e, r, s, p),
        (p: Recorded, q: Recorded) => p == q, (x: Triple<Word>, y: Triple<Word>) => x == y)
  }

  lemma AlikeBefore(e: nat, r: Tapes, s: Tapes, p: Recorded, c: Triple<Word>, k: bool)
    requires AlikeSoFar(e, r, s, Recorded(p.ys + [c], p.adds + [k]))
    ensures AlikeSoFar(e, r, s, p)
    ensures SameUsed(k, TapeWord(r.At(e + 2), |p.ys|), TapeWord(s.At(e + 2), |p.ys|))
  {
    hide SameUsed, TapeWord;
    var q := Recorded(p.ys + [c], p.adds + [k]);
    assert q.adds[|p.adds|] == k;
    assert forall i :: 0 <= i < |p.adds| ==> q.adds[i] == p.adds[i];
  }

  lemma IgnoringSimulates(e: nat, r: Tapes, s: Tapes)
    requires e < 3 && Agree(e, r, s)
    ensures Simulates(Ignoring(e, r, s))
  {
    var m := Ignoring(e, r, s);
    hide AddCarries, SumShares, AndShares, TapeWord, AlikeSoFar, XorShares, RotrShares, ShrShares;
    forall s1, s2, x1, x2, y1, y2
      ensures Step(m, s1, s2, x1, x2, y1, y2, m.g1.add(s1, x1, y1), m.g2.add(s2, x2, y2))
    {
      var n := |s1.ys|;
      if AlikeSoFar(e, r, s, m.g1.add(s1, x1, y1).0) {
        AlikeBefore(e, r, s, s1, AddCarries(x1, y1, TapeWords(r, n), NO_CARRY), true);
        TapeWordsAlike(e, r, s, n);
        TapeWordsAt(e, r, n);
        TapeWordsAt(e, s, n);
        CarriesAlike(e, x1, y1, TapeWords(r, n), TapeWords(s, n));
      }
    }
    forall s1, s2, x1, x2, y1, y2
      ensures Step(m, s1, s2, x1, x2, y1, y2, m.g1.and(s1, x1, y1), m.g2.and(s2, x2, y2))
    {
      var n := |s1.ys|;
      if AlikeSoFar(e, r, s, m.g1.and(s1, x1, y1).0) {
        AlikeBefore(e, r, s, s1, AndShares(x1, y1, TapeWords(r, n)), false);
        TapeWordsAlike(e, r, s, n);
        TapeWordsAt(e, r, n);
        TapeWordsAt(e, s, n);
        assert TapeWords(r, n) == TapeWords(s, n) by { if e == 0 {} else if e == 1 {} else {} }
      }
    }
  }

  lemma TapeWordsAlike(e: nat, r: Tapes, s: Tapes, i: nat)
    requires e < 3 && Agree(e, r, s)
    ensures Agree(e, TapeWords(r, i), TapeWords(s, i))
  {
    hide TapeWord;
    TapeWordsAt(e, r, i);
    TapeWordsAt(e, s, i);
  }

  lemma BlocksAlike(e: nat, r: Tapes, s: Tapes, h: Sha256.Vars<Triple<Word>>, k: seq<Word>, c: seq<seq<Triple<Word>>>,
                    n: nat)
    requires e < 3 && Agree(e, r, s) && |k| == 64 && n <= |c| && forall i :: 0 <= i < |c| ==> |c[i]| == 16
    requires AlikeSoFar(e, r, s, Blocks(ProveGates(r, []), NOTHING, h, k, c, n).0)
    ensures Blocks(ProveGates(r, []), NOTHING, h, k, c, n) == Blocks(ProveGates(s, []), NOTHING, h, k, c, n)
  {
    hide Blocks, Simulates, AlikeSoFar;
    IgnoringSimulates(e, r, s);
    SimulateEqual(Ignoring(e, r, s), NOTHING, NOTHING, h, k, c, n);
  }

  lemma RunAlike(e: nat, x: Triple<seq<Byte>>, r: Tapes, s: Tapes)
    requires e < 3 && SameLength(x) && Agree(e, r, s) && UsedAlike(e, r, s, GATES_PER_BLOCK * NumBlocks(|x.p0|))
    ensures ProverRun(x, r, []) == ProverRun(x, s, [])
  {
    hide Blocks, ShareChunks, NumBlocks, LiftVars, SameUsed, IsAddGate, TapeWord;
    ProverBudget(x, r, []);
    ProverLift(r, s);
    BlocksAlike(e, r, s, LiftVars(ProveGates(r, []), Sha256.H0), Sha256.K, ShareChunks(x), NumBlocks(|x.p0|));
  }

  /** Exactly which tapes of the third party give the same opened views: those that agree on every bit
      a gate uses, all bits at an AND gate and bits 0 to 30 at an ADD gate. They give the same run. */
  lemma PatchedTapeExact(e: nat, x: Triple<seq<Byte>>, r: Tapes, s: Tapes)
    requires e < 3 && SameLength(x) && Agree(e, r, s)
    ensures SameViews(e, ProverRun(x, r, []).0.ys, ProverRun(x, s, []).0.ys)
      <==> UsedAlike(e, r, s, GATES_PER_BLOCK * NumBlocks(|x.p0|))
    ensures UsedAlike(e, r, s, GATES_PER_BLOCK * NumBlocks(|x.p0|)) ==> ProverRun(x, r, []) == ProverRun(x, s, [])
  {
    hide ProverRun, NumBlocks, UsedAlike;
    if SameViews(e, ProverRun(x, r, []).0.ys, ProverRun(x, s, []).0.ys) { RetapedForces(e, x, r, s); }
    if UsedAlike(e, r, s, GATES_PER_BLOCK * NumBlocks(|x.p0|)) { RunAlike(e, x, r, s); }
  }
}
