/** The SHA-256 circuit, written once over an abstract kind of share V and an abstract evaluation
    state S, and one simulation argument that carries any gate-by-gate relation between two
    evaluations of it through the schedule, the rounds, the chaining and all blocks. */
module Circuit {
  import opened Bits
  import opened Sha256

  /** How one evaluation treats each gate. Only add and and touch the state. */
  datatype Gates<!S, !V> = Gates(
    add: (S, V, V) -> (S, V),
    and: (S, V, V) -> (S, V),
    xor: (V, V) -> V,
    rotr: (V, nat) -> V,
    shr: (V, nat) -> V,
    lift: Word -> V)

  function VarsOf<V>(h: seq<V>): Vars<V>
    requires |h| == 8
  {
    Vars(h[0], h[1], h[2], h[3], h[4], h[5], h[6], h[7])
  }

  function LiftVars<S, V>(g: Gates<S, V>, v: Vars<Word>): Vars<V> {
    Vars(g.lift(v.a), g.lift(v.b), g.lift(v.c), g.lift(v.d),
         g.lift(v.e), g.lift(v.f), g.lift(v.g), g.lift(v.h))
  }

  function Rotations<S, V>(g: Gates<S, V>, x: V, i: nat, j: nat, k: nat): V {
    g.xor(g.xor(g.rotr(x, i), g.rotr(x, j)), g.rotr(x, k))
  }

  function RotationsShift<S, V>(g: Gates<S, V>, x: V, i: nat, j: nat, k: nat): V {
    g.xor(g.xor(g.rotr(x, i), g.rotr(x, j)), g.shr(x, k))
  }

  /** w[j] from w[j-16], w[j-15], w[j-7] and w[j-2]: three ADD gates. */
  function ScheduleWord<S, V>(g: Gates<S, V>, s: S, w16: V, w15: V, w7: V, w2: V): (S, V) {
    var r1 := g.add(s, w16, RotationsShift(g, w15, 7, 18, 3));
    var r2 := g.add(r1.0, w7, r1.1);
    g.add(r2.0, r2.1, RotationsShift(g, w2, 17, 19, 10))
  }

  /** The first n words of the message schedule. */
  function Schedule<S, V>(g: Gates<S, V>, s: S, chunk: seq<V>, n: nat): (r: (S, seq<V>))
    requires |chunk| == 16 <= n
    ensures |r.1| == n
  {
    if n == 16 then (s, chunk)
    else
      var r := Schedule(g, s, chunk, n - 1);
      var x := ScheduleWord(g, r.0, r.1[n - 17], r.1[n - 16], r.1[n - 8], r.1[n - 3]);
      (x.0, r.1 + [x.1])
  }

  /** One compression round: seven ADD gates and two AND gates, in the order of the source. */
  function Round<S, V>(g: Gates<S, V>, s: S, v: Vars<V>, k: Word, w: V): (S, Vars<V>) {
    var r1 := g.add(s, v.h, Rotations(g, v.e, 6, 11, 25));
    var r2 := g.and(r1.0, v.e, g.xor(v.f, v.g));
    var r3 := g.add(r2.0, r1.1, g.xor(r2.1, v.g));
    var r4 := g.add(r3.0, r3.1, g.lift(k));
    var r5 := g.add(r4.0, r4.1, w);
    var r6 := g.and(r5.0, g.xor(v.a, v.b), g.xor(v.a, v.c));
    var r7 := g.add(r6.0, Rotations(g, v.a, 2, 13, 22), g.xor(r6.1, v.a));
    var r8 := g.add(r7.0, v.d, r5.1);
    var r9 := g.add(r8.0, r5.1, r7.1);
    (r9.0, Vars(r9.1, v.a, v.b, v.c, r8.1, v.e, v.f, v.g))
  }

  /** The first n rounds. */
  function Rounds<S, V>(g: Gates<S, V>, s: S, v: Vars<V>, k: seq<Word>, w: seq<V>, n: nat): (S, Vars<V>)
    requires n <= |k| && n <= |w|
  {
    if n == 0 then (s, v)
    else
      var r := Rounds(g, s, v, k, w, n - 1);
      Round(g, r.0, r.1, k[n - 1], w[n - 1])
  }

  /** The eight ADD gates that close a block. */
  function AddVars<S, V>(g: Gates<S, V>, s: S, x: Vars<V>, y: Vars<V>): (S, Vars<V>) {
    var r0 := g.add(s, x.a, y.a);
    var r1 := g.add(r0.0, x.b, y.b);
    var r2 := g.add(r1.0, x.c, y.c);
    var r3 := g.add(r2.0, x.d, y.d);
    var r4 := g.add(r3.0, x.e, y.e);
    var r5 := g.add(r4.0, x.f, y.f);
    var r6 := g.add(r5.0, x.g, y.g);
    var r7 := g.add(r6.0, x.h, y.h);
    (r7.0, Vars(r0.1, r1.1, r2.1, r3.1, r4.1, r5.1, r6.1, r7.1))
  }

  function Block<S, V>(g: Gates<S, V>, s: S, h: Vars<V>, k: seq<Word>, chunk: seq<V>): (S, Vars<V>)
    requires |chunk| == 16 && |k| == 64
  {
    var ws := Schedule(g, s, chunk, 64);
    var r := Rounds(g, ws.0, h, k, ws.1, 64);
    AddVars(g, r.0, h, r.1)
  }

  /** The chaining value after the first n blocks. */
  function Blocks<S, V>(g: Gates<S, V>, s: S, h: Vars<V>, k: seq<Word>, chunks: seq<seq<V>>, n: nat): (S, Vars<V>)
    requires n <= |chunks| && |k| == 64 && forall i :: 0 <= i < |chunks| ==> |chunks[i]| == 16
  {
    if n == 0 then (s, h)
    else
      var r := Blocks(g, s, h, k, chunks, n - 1);
      Block(g, r.0, r.1, k, chunks[n - 1])
  }

  // ----- simulation

  /** A candidate relation between two evaluations. good selects the runs of interest looking at
      their end: it must hold before a gate whenever it holds after. */
  datatype Sim<!S1, !V1, !S2, !V2> = Sim(
    g1: Gates<S1, V1>, g2: Gates<S2, V2>,
    good: (S1, S2) -> bool, states: (S1, S2) -> bool, values: (V1, V2) -> bool)

  ghost predicate Step<S1, V1, S2, V2>(m: Sim<S1, V1, S2, V2>, s1: S1, s2: S2,
                                       x1: V1, x2: V2, y1: V1, y2: V2, r1: (S1, V1), r2: (S2, V2)) {
    m.good(r1.0, r2.0) ==>
      && m.good(s1, s2)
      && (m.states(s1, s2) && m.values(x1, x2) && m.values(y1, y2) ==>
            m.states(r1.0, r2.0) && m.values(r1.1, r2.1))
  }

  /** Every gate preserves the relation. */
  ghost predicate Simulates<S1(!new), V1(!new), S2(!new), V2(!new)>(m: Sim<S1, V1, S2, V2>) {
    && (forall s1, s2, x1, x2, y1, y2 {:trigger m.g1.add(s1, x1, y1), m.g2.add(s2, x2, y2)} ::
          Step(m, s1, s2, x1, x2, y1, y2, m.g1.add(s1, x1, y1), m.g2.add(s2, x2, y2)))
    && (forall s1, s2, x1, x2, y1, y2 {:trigger m.g1.and(s1, x1, y1), m.g2.and(s2, x2, y2)} ::
          Step(m, s1, s2, x1, x2, y1, y2, m.g1.and(s1, x1, y1), m.g2.and(s2, x2, y2)))
    && (forall x1, x2, y1, y2 {:trigger m.g1.xor(x1, y1), m.g2.xor(x2, y2)} ::
          m.values(x1, x2) && m.values(y1, y2) ==> m.values(m.g1.xor(x1, y1), m.g2.xor(x2, y2)))
    && (forall x1, x2, n {:trigger m.g1.rotr(x1, n), m.g2.rotr(x2, n)} ::
          m.values(x1, x2) ==> m.values(m.g1.rotr(x1, n), m.g2.rotr(x2, n)))
    && (forall x1, x2, n {:trigger m.g1.shr(x1, n), m.g2.shr(x2, n)} ::
          m.values(x1, x2) ==> m.values(m.g1.shr(x1, n), m.g2.shr(x2, n)))
    && (forall c {:trigger m.g1.lift(c)} {:trigger m.g2.lift(c)} :: m.values(m.g1.lift(c), m.g2.lift(c)))
  }

  ghost predicate SameVars<S1, V1, S2, V2>(m: Sim<S1, V1, S2, V2>, v1: Vars<V1>, v2: Vars<V2>) {
    && m.values(v1.a, v2.a) && m.values(v1.b, v2.b) && m.values(v1.c, v2.c) && m.values(v1.d, v2.d)
    && m.values(v1.e, v2.e) && m.values(v1.f, v2.f) && m.values(v1.g, v2.g) && m.values(v1.h, v2.h)
  }

  ghost predicate SameSeq<S1, V1, S2, V2>(m: Sim<S1, V1, S2, V2>, w1: seq<V1>, w2: seq<V2>) {
    |w1| == |w2| && forall i :: 0 <= i < |w1| ==> m.values(w1[i], w2[i])
  }

  ghost predicate SameChunks<S1, V1, S2, V2>(m: Sim<S1, V1, S2, V2>, c1: seq<seq<V1>>, c2: seq<seq<V2>>) {
    |c1| == |c2| && forall i :: 0 <= i < |c1| ==> |c1[i]| == 16 && SameSeq(m, c1[i], c2[i])
  }

  lemma SimulateRound<S1(!new), V1(!new), S2(!new), V2(!new)>(
    m: Sim<S1, V1, S2, V2>, s1: S1, s2: S2, v1: Vars<V1>, v2: Vars<V2>, k: Word, w1: V1, w2: V2)
    requires Simulates(m)
    requires m.good(Round(m.g1, s1, v1, k, w1).0, Round(m.g2, s2, v2, k, w2).0)
    ensures m.good(s1, s2)
    ensures m.states(s1, s2) && SameVars(m, v1, v2) && m.values(w1, w2) ==>
      var r1, r2 := Round(m.g1, s1, v1, k, w1), Round(m.g2, s2, v2, k, w2);
      m.states(r1.0, r2.0) && SameVars(m, r1.1, r2.1)
  {}

  lemma SimulateAddVars<S1(!new), V1(!new), S2(!new), V2(!new)>(
    m: Sim<S1, V1, S2, V2>, s1: S1, s2: S2, x1: Vars<V1>, x2: Vars<V2>, y1: Vars<V1>, y2: Vars<V2>)
    requires Simulates(m)
    requires m.good(AddVars(m.g1, s1, x1, y1).0, AddVars(m.g2, s2, x2, y2).0)
    ensures m.good(s1, s2)
    ensures m.states(s1, s2) && SameVars(m, x1, x2) && SameVars(m, y1, y2) ==>
      var r1, r2 := AddVars(m.g1, s1, x1, y1), AddVars(m.g2, s2, x2, y2);
      m.states(r1.0, r2.0) && SameVars(m, r1.1, r2.1)
  {}

  lemma {:induction false} SimulateSchedule<S1(!new), V1(!new), S2(!new), V2(!new)>(
    m: Sim<S1, V1, S2, V2>, s1: S1, s2: S2, c1: seq<V1>, c2: seq<V2>, n: nat)
    requires Simulates(m) && |c1| == |c2| == 16 <= n
    requires m.good(Schedule(m.g1, s1, c1, n).0, Schedule(m.g2, s2, c2, n).0)
    ensures m.good(s1, s2)
    ensures m.states(s1, s2) && SameSeq(m, c1, c2) ==>
      var r1, r2 := Schedule(m.g1, s1, c1, n), Schedule(m.g2, s2, c2, n);
      m.states(r1.0, r2.0) && SameSeq(m, r1.1, r2.1)
  {
    if n > 16 {
      SimulateSchedule(m, s1, s2, c1, c2, n - 1);
    }
  }

  lemma {:induction false} SimulateRounds<S1(!new), V1(!new), S2(!new), V2(!new)>(
    m: Sim<S1, V1, S2, V2>, s1: S1, s2: S2, v1: Vars<V1>, v2: Vars<V2>, k: seq<Word>,
    w1: seq<V1>, w2: seq<V2>, n: nat)
    requires Simulates(m) && n <= |k| && n <= |w1| == |w2|
    requires m.good(Rounds(m.g1, s1, v1, k, w1, n).0, Rounds(m.g2, s2, v2, k, w2, n).0)
    ensures m.good(s1, s2)
    ensures m.states(s1, s2) && SameVars(m, v1, v2) && SameSeq(m, w1, w2) ==>
      var r1, r2 := Rounds(m.g1, s1, v1, k, w1, n), Rounds(m.g2, s2, v2, k, w2, n);
      m.states(r1.0, r2.0) && SameVars(m, r1.1, r2.1)
  {
    hide Round;
    if n > 0 {
      var r1, r2 := Rounds(m.g1, s1, v1, k, w1, n - 1), Rounds(m.g2, s2, v2, k, w2, n - 1);
      SimulateRound(m, r1.0, r2.0, r1.1, r2.1, k[n - 1], w1[n - 1], w2[n - 1]);
      SimulateRounds(m, s1, s2, v1, v2, k, w1, w2, n - 1);
    }
  }

  lemma SimulateBlock<S1(!new), V1(!new), S2(!new), V2(!new)>(
    m: Sim<S1, V1, S2, V2>, s1: S1, s2: S2, h1: Vars<V1>, h2: Vars<V2>, k: seq<Word>,
    c1: seq<V1>, c2: seq<V2>)
    requires Simulates(m) && |k| == 64 && |c1| == |c2| == 16
    requires m.good(Block(m.g1, s1, h1, k, c1).0, Block(m.g2, s2, h2, k, c2).0)
    ensures m.good(s1, s2)
    ensures m.states(s1, s2) && SameVars(m, h1, h2) && SameSeq(m, c1, c2) ==>
      var r1, r2 := Block(m.g1, s1, h1, k, c1), Block(m.g2, s2, h2, k, c2);
      m.states(r1.0, r2.0) && SameVars(m, r1.1, r2.1)
  {
    var w1, w2 := Schedule(m.g1, s1, c1, 64), Schedule(m.g2, s2, c2, 64);
    var r1, r2 := Rounds(m.g1, w1.0, h1, k, w1.1, 64), Rounds(m.g2, w2.0, h2, k, w2.1, 64);
    SimulateAddVars(m, r1.0, r2.0, h1, h2, r1.1, r2.1);
    SimulateRounds(m, w1.0, w2.0, h1, h2, k, w1.1, w2.1, 64);
    SimulateSchedule(m, s1, s2, c1, c2, 64);
  }

  /** Related inputs give related final states and related chaining values. */
  lemma {:induction false} SimulateBlocks<S1(!new), V1(!new), S2(!new), V2(!new)>(
    m: Sim<S1, V1, S2, V2>, s1: S1, s2: S2, h1: Vars<V1>, h2: Vars<V2>, k: seq<Word>,
    c1: seq<seq<V1>>, c2: seq<seq<V2>>, n: nat)
    requires Simulates(m) && |k| == 64 && SameChunks(m, c1, c2) && n <= |c1|
    requires m.good(Blocks(m.g1, s1, h1, k, c1, n).0, Blocks(m.g2, s2, h2, k, c2, n).0)
    ensures m.good(s1, s2)
    ensures m.states(s1, s2) && SameVars(m, h1, h2) ==>
      var r1, r2 := Blocks(m.g1, s1, h1, k, c1, n), Blocks(m.g2, s2, h2, k, c2, n);
      m.states(r1.0, r2.0) && SameVars(m, r1.1, r2.1)
  {
    hide Block;
    if n > 0 {
      var r1, r2 := Blocks(m.g1, s1, h1, k, c1, n - 1), Blocks(m.g2, s2, h2, k, c2, n - 1);
      SimulateBlock(m, r1.0, r2.0, r1.1, r2.1, k, c1[n - 1], c2[n - 1]);
      SimulateBlocks(m, s1, s2, h1, h2, k, c1, c2, n - 1);
    }
  }

  /** When related values are equal values, the chaining values of the two evaluations are equal. */
  lemma SimulateEqual<S1(!new), S2(!new), V(!new)>(
    m: Sim<S1, V, S2, V>, s1: S1, s2: S2, h: Vars<V>, k: seq<Word>, c: seq<seq<V>>, n: nat)
    requires Simulates(m) && |k| == 64 && n <= |c| && forall i :: 0 <= i < |c| ==> |c[i]| == 16
    requires forall x, y {:trigger m.values(x, y)} :: m.values(x, y) <==> x == y
    requires m.states(s1, s2)
    ensures var r1, r2 := Blocks(m.g1, s1, h, k, c, n), Blocks(m.g2, s2, h, k, c, n);
      m.good(r1.0, r2.0) ==> m.good(s1, s2) && m.states(r1.0, r2.0) && r1.1 == r2.1
  {
    hide Blocks, Simulates;
    if m.good(Blocks(m.g1, s1, h, k, c, n).0, Blocks(m.g2, s2, h, k, c, n).0) {
      SimulateBlocks(m, s1, s2, h, h, k, c, c, n);
    }
  }
}
