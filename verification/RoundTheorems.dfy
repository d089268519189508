/** Completeness, special soundness and two-view privacy of one round. */
module RoundTheorems {
  import opened Bits
  import opened Shares
  import opened Evaluations
  import opened Padding
  import opened Memory
  import opened Refinement
  import opened Budget
  import opened Soundness
  import opened SpecialSoundness
  import opened ByteViews
  import opened SharedHash
  import opened HaleviMicali
  import Prover
  import Sha256

  // ----- bytes and words

  /** The bytes of the opened vector are the opened bytes of the shares. */
  lemma BytesOpen(x: Triple<RVec>, lBits: nat)
    requires ShareVectors(x, lBits)
    ensures SameLength(InputBytes(x, lBits))
    ensures XorBytes3(InputBytes(x, lBits)) == RBytes(XorVec3(x), lBits)
  {
    var b := InputBytes(x, lBits);
    var l, r := XorBytes3(b), RBytes(XorVec3(x), lBits);
    forall i | 0 <= i < |l| ensures l[i] == r[i] {
      var w := XorVec3(x)[i / 4];
      forall j | 0 <= j < 8 ensures l[i][j] == r[i][j] {
        var k := 8 * (i % 4) + j;
        assert r[i][j] == w[k];
        assert b.p0[i][j] == x.p0[i / 4][k] && b.p1[i][j] == x.p1[i / 4][k] && b.p2[i][j] == x.p2[i / 4][k];
      }
    }
  }

  lemma StoreLoadBE(b: Bytes)
    requires |b| == 4
    ensures Sha256.StoreBE(Sha256.LoadBE(b)) == b
  {
    var w := Sha256.LoadBE(b);
    assert Sha256.ByteOf(w, 3) == b[0] && Sha256.ByteOf(w, 2) == b[1] && Sha256.ByteOf(w, 1) == b[2];
    assert Sha256.ByteOf(w, 0) == b[3];
  }

  lemma LoadStoreBE(w: Word)
    ensures Sha256.LoadBE(Sha256.StoreBE(w)) == w
  {}

  /** A digest and its eight big-endian words determine each other. */
  lemma DigestWordsExact(d: Digest, v: Sha256.Vars<Word>)
    ensures DigestWords(d) == Sha256.WordsOf(v) <==> d == Sha256.DigestBytes(v)
  {
    hide Sha256.StoreBE, Sha256.LoadBE, Sha256.WordsOf;
    var w := Sha256.WordsOf(v);
    var s := Sha256.DigestBytes(v);
    if DigestWords(d) == w {
      forall i | 0 <= i < 32 ensures d[i] == s[i] {
        var q := d[4 * (i / 4)..4 * (i / 4) + 4];
        StoreLoadBE(q);
        assert DigestWords(d)[i / 4] == Sha256.LoadBE(q);
        assert q[i % 4] == d[i];
      }
    }
    if d == s {
      forall i | 0 <= i < 8 ensures DigestWords(d)[i] == w[i] {
        var q := d[4 * i..4 * i + 4];
        var t := Sha256.StoreBE(w[i]);
        assert q == t by {
          forall j | 0 <= j < 4 ensures q[j] == t[j] {
            assert (4 * i + j) / 4 == i && (4 * i + j) % 4 == j;
          }
        }
        LoadStoreBE(w[i]);
      }
    }
  }

  /** The reconstructed output shares open to the digest. */
  lemma ReconstructedOpen(a: Commit, d: Digest)
    requires WellFormedCommit(a)
    ensures OpenWords(ReconstructShares(a, d)) == DigestWords(d)
  {
    var o := ReconstructShares(a, d);
    var l, r := OpenWords(o), DigestWords(d);
    forall i | 0 <= i < 8 ensures l[i] == r[i] {
      forall j | 0 <= j < 32 ensures l[i][j] == r[i][j] {}
    }
  }

  /** The third output share is forced by the first two and the digest words. */
  lemma ReconstructForced(a: Commit, d: Digest, o: Triple<seq<Word>>)
    requires WellFormedCommit(a) && |o.p0| == |o.p1| == |o.p2| == 8
    requires o.p0 == a.yp0 && o.p1 == a.yp1 && OpenWords(o) == DigestWords(d)
    ensures ReconstructShares(a, d) == o
  {
    var q := ReconstructShares(a, d);
    forall i | 0 <= i < 8 ensures q.p2[i] == o.p2[i] {
      forall j | 0 <= j < 32 ensures q.p2[i][j] == o.p2[i][j] {
        assert OpenWords(o)[i][j] == DigestWords(d)[i][j];
      }
    }
    assert q.p2 == o.p2;
  }

  // ----- a full set of views

  /** Three views, keys and nonces; a verifier of challenge e sees two of each. */
  datatype Transcript = Transcript(keys: Triple<Bytes>, rs: Triple<Bytes>, views: Triple<ViewVal>)

  ghost predicate WellFormed(t: Transcript, lBits: nat) {
    WellFormedView(t.views.p0, lBits) && WellFormedView(t.views.p1, lBits) && WellFormedView(t.views.p2, lBits)
  }

  ghost function Vectors(t: Transcript): Triple<RVec> { Triple(t.views.p0.x, t.views.p1.x, t.views.p2.x) }

  ghost function MsgWords(t: Transcript, lBits: nat): Triple<Word>
    requires WellFormed(t, lBits)
  {
    Triple(LoadLE(t.views.p0.msg), LoadLE(t.views.p1.msg), LoadLE(t.views.p2.msg))
  }

  ghost function RecordedWords(t: Transcript): Tapes { Triple(t.views.p0.y, t.views.p1.y, t.views.p2.y) }

  /** Challenge e is accepted on the views e and e+1 of t. */
  ghost predicate Accepted(p: Primitives, lBits: nat, H: HashKey, a: Commit, t: Transcript, d: Digest, e: nat)
    requires WellFormed(t, lBits) && WellFormedCommit(a) && LWords(lBits) < |H.A| && |H.b| > 0 && e < 3
  {
    RoundAccepts(p, lBits, H, a, OpenViews(e, t.keys, t.rs, t.views), d, e)
  }

  ghost predicate AcceptedAll(p: Primitives, lBits: nat, H: HashKey, a: Commit, t: Transcript, d: Digest)
    requires WellFormed(t, lBits) && WellFormedCommit(a) && LWords(lBits) < |H.A| && |H.b| > 0
  {
    Accepted(p, lBits, H, a, t, d, 0) && Accepted(p, lBits, H, a, t, d, 1) && Accepted(p, lBits, H, a, t, d, 2)
  }

  ghost predicate CircuitPart(p: Primitives, lBits: nat, a: Commit, t: Transcript, d: Digest, e: nat)
    requires WellFormed(t, lBits) && WellFormedCommit(a)
  {
    Prover.InputBytesLength(Vectors(t), lBits);
    AcceptsChallenge(InputBytes(Vectors(t), lBits), KeyTapes(p, t.keys, lBits), RecordedWords(t),
                     ReconstructShares(a, d), e)
  }

  ghost predicate InnerPart(lBits: nat, H: HashKey, a: Commit, t: Transcript, e: nat)
    requires WellFormed(t, lBits) && LWords(lBits) < |H.A| && |H.b| > 0
  {
    InnerAccepts(H.A, H.b[0][0], Opened(MsgWords(t, lBits), e), Opened(Vectors(t), e), lBits, a.y2p, e)
  }

  lemma AcceptedParts(p: Primitives, lBits: nat, H: HashKey, a: Commit, t: Transcript, d: Digest, e: nat)
    requires WellFormed(t, lBits) && WellFormedCommit(a) && LWords(lBits) < |H.A| && |H.b| > 0 && e < 3
    ensures Accepted(p, lBits, H, a, t, d, e) <==>
      && a.h.At(e) == HashViews(p, t.keys, t.views, t.rs).At(e)
      && a.h.At(e + 1) == HashViews(p, t.keys, t.views, t.rs).At(e + 1)
      && CircuitPart(p, lBits, a, t, d, e) && InnerPart(lBits, H, a, t, e)
  {
    hide Accepts, InnerAccepts, Tape, TapeOf, RBytes, NumBlocks, ReconstructShares, LoadLE;
    if e == 0 {} else if e == 1 {} else {}
  }

  lemma HashParts(h: Triple<Digest>, k: Triple<Digest>)
    ensures h == k <==>
      && h.At(0) == k.At(0) && h.At(1) == k.At(1)
      && h.At(1) == k.At(1) && h.At(2) == k.At(2)
      && h.At(2) == k.At(2) && h.At(3) == k.At(3)
  {}

  lemma CircuitParts(p: Primitives, lBits: nat, a: Commit, t: Transcript, d: Digest)
    requires WellFormed(t, lBits) && WellFormedCommit(a)
    ensures SameLength(InputBytes(Vectors(t), lBits))
    ensures (forall e :: 0 <= e < 3 ==> CircuitPart(p, lBits, a, t, d, e))
      <==> AllAccept(InputBytes(Vectors(t), lBits), KeyTapes(p, t.keys, lBits), RecordedWords(t),
                     ReconstructShares(a, d))
  {
    hide AcceptsChallenge, KeyTapes, RBytes, ReconstructShares, NumBlocks;
    Prover.InputBytesLength(Vectors(t), lBits);
    var x, tapes := InputBytes(Vectors(t), lBits), KeyTapes(p, t.keys, lBits);
    forall e | 0 <= e < 3
      ensures CircuitPart(p, lBits, a, t, d, e)
        <==> AcceptsChallenge(x, tapes, RecordedWords(t), ReconstructShares(a, d), e)
    {}
  }

  lemma InnerParts(lBits: nat, H: HashKey, a: Commit, t: Transcript)
    requires WellFormed(t, lBits) && LWords(lBits) < |H.A| && |H.b| > 0
    ensures InnerPart(lBits, H, a, t, 0) && InnerPart(lBits, H, a, t, 1) && InnerPart(lBits, H, a, t, 2) <==>
      && a.y2p == InnerShares(H.A, MsgWords(t, lBits), Vectors(t), lBits)
      && Xor3(MsgWords(t, lBits)) == BitWord(RowTimes(H.A, XorVec3(Vectors(t)), lBits, 0) != H.b[0][0])
  {
    hide InnerAccepts, InnerShares, LoadLE, RowTimes, NumBlocks, Xor3, XorVec3;
    InnerAcceptsExact(H.A, H.b[0][0], MsgWords(t, lBits), Vectors(t), lBits, a.y2p);
  }

  /** All three challenges are accepted on one transcript exactly when the view hashes match, the
      recorded words and output shares are the ones the circuit forces, the output shares of the
      inner product are the computed ones, and the message shares open to row 0 times r XOR b. */
  lemma RoundExact(p: Primitives, lBits: nat, H: HashKey, a: Commit, t: Transcript, d: Digest)
    requires WellFormed(t, lBits) && WellFormedCommit(a) && LWords(lBits) < |H.A| && |H.b| > 0
    ensures SameLength(InputBytes(Vectors(t), lBits))
    ensures AcceptedAll(p, lBits, H, a, t, d) <==>
      && a.h == HashViews(p, t.keys, t.views, t.rs)
      && AllAccept(InputBytes(Vectors(t), lBits), KeyTapes(p, t.keys, lBits), RecordedWords(t), ReconstructShares(a, d))
      && a.y2p == InnerShares(H.A, MsgWords(t, lBits), Vectors(t), lBits)
      && Xor3(MsgWords(t, lBits)) == BitWord(RowTimes(H.A, XorVec3(Vectors(t)), lBits, 0) != H.b[0][0])
  {
    hide Accepted, CircuitPart, InnerPart, AllAccept, InnerShares, KeyTapes, RBytes, NumBlocks, ReconstructShares,
         LoadLE,
         RowTimes, HashViews, Xor3, XorVec3, WellFormedView, WellFormedCommit;
    AcceptedParts(p, lBits, H, a, t, d, 0);
    AcceptedParts(p, lBits, H, a, t, d, 1);
    AcceptedParts(p, lBits, H, a, t, d, 2);
    HashParts(a.h, HashViews(p, t.keys, t.views, t.rs));
    CircuitParts(p, lBits, a, t, d);
    InnerParts(lBits, H, a, t);
  }

  lemma ViewsFull(t: Transcript, lBits: nat)
    requires WellFormed(t, lBits)
    ensures SameLength(InputBytes(Vectors(t), lBits))
    ensures FullViews(InputBytes(Vectors(t), lBits), RecordedWords(t))
  {
    hide NumBlocks;
  }

  /** Special soundness of a round. If all three challenges are accepted on one transcript, the
      message shares open to the bit the commitment hides under the opened vector, and the digest is
      the hash of that vector with the recorded carry-ins: its SHA-256 whenever the lowest recorded
      carry bits cancel at every ADD gate. */
  lemma RoundSoundness(p: Primitives, lBits: nat, H: HashKey, a: Commit, t: Transcript, d: Digest)
    requires WellFormed(t, lBits) && WellFormedCommit(a) && LWords(lBits) < |H.A| && |H.b| > 0
    requires AcceptedAll(p, lBits, H, a, t, d)
    ensures Xor3(MsgWords(t, lBits)) == BitWord(RowTimes(H.A, XorVec3(Vectors(t)), lBits, 0) != H.b[0][0])
    ensures DigestFits(t, lBits, d)
  {
    hide AcceptedAll, AllAccept, InnerShares, KeyTapes, RBytes, NumBlocks, LoadLE, RowTimes, HashViews, LowBitsCancel,
         FullViews, CarryInHash, CarryIns, LowBits, Sha256.Hash, Sha256.BitString, Sha256.WordsOf, OpenWords, Xor3,
         ReconstructShares;
    var x := InputBytes(Vectors(t), lBits);
    RoundExact(p, lBits, H, a, t, d);
    ViewsFull(t, lBits);
    AcceptedOpens(x, KeyTapes(p, t.keys, lBits), RecordedWords(t), ReconstructShares(a, d));
    AcceptedIsSha256(x, KeyTapes(p, t.keys, lBits), RecordedWords(t), ReconstructShares(a, d));
    ReconstructedOpen(a, d);
    BytesOpen(Vectors(t), lBits);
    DigestWordsExact(d, Sha256.Hash(Sha256.BitString(RBytes(XorVec3(Vectors(t)), lBits))));
    DigestWordsExact(d, CarryInHash(CarryIns(LowBits(RecordedWords(t))), RBytes(XorVec3(Vectors(t)), lBits)));
  }

  // ----- three separate openings of one commitment

  /** Two hashed key-view-nonce triples that collide are equal. */
  ghost predicate Binding(p: Primitives, z: Open, u: Open) {
    var collide := p.viewHash(z.keys.next, z.views.next, z.rs.next) == p.viewHash(u.keys.own, u.views.own, u.rs.own);
    collide ==> z.keys.next == u.keys.own && z.views.next == u.views.own && z.rs.next == u.rs.own
  }

  ghost predicate FitsOpen(z: Open, lBits: nat) {
    WellFormedView(z.views.own, lBits) && WellFormedView(z.views.next, lBits)
  }

  /** What the first parties of three openings are as one transcript. */
  ghost function Joined(z: Triple<Open>): Transcript {
    Transcript(Triple(z.p0.keys.own, z.p1.keys.own, z.p2.keys.own), Triple(z.p0.rs.own, z.p1.rs.own, z.p2.rs.own),
               Triple(z.p0.views.own, z.p1.views.own, z.p2.views.own))
  }

  /** Neighbouring openings share the second party of the first, unless its view hash collides. */
  lemma NeighboursAgree(p: Primitives, lBits: nat, H: HashKey, a: Commit, z: Open, u: Open, d: Digest, e: nat)
    requires WellFormedCommit(a) && LWords(lBits) < |H.A| && |H.b| > 0 && e < 3
    requires FitsOpen(z, lBits) && FitsOpen(u, lBits)
    requires RoundAccepts(p, lBits, H, a, z, d, e) && RoundAccepts(p, lBits, H, a, u, d, (e + 1) % 3)
    requires Binding(p, z, u)
    ensures z.keys.next == u.keys.own && z.views.next == u.views.own && z.rs.next == u.rs.own
  {
    hide Accepts, InnerAccepts, Tape, TapeOf, RBytes, NumBlocks, ReconstructShares, LoadLE, WellFormedView;
    if e == 0 {} else if e == 1 {} else {}
  }

  /** Accepted openings of one commitment for the three challenges join to one transcript, if no two
      of the view hashes they share collide. */
  lemma OpeningsJoin(p: Primitives, lBits: nat, H: HashKey, a: Commit, z: Triple<Open>, d: Digest)
    requires WellFormedCommit(a) && LWords(lBits) < |H.A| && |H.b| > 0
    requires FitsOpen(z.p0, lBits) && FitsOpen(z.p1, lBits) && FitsOpen(z.p2, lBits)
    requires RoundAccepts(p, lBits, H, a, z.p0, d, 0)
    requires RoundAccepts(p, lBits, H, a, z.p1, d, 1)
    requires RoundAccepts(p, lBits, H, a, z.p2, d, 2)
    requires Binding(p, z.p0, z.p1) && Binding(p, z.p1, z.p2) && Binding(p, z.p2, z.p0)
    ensures WellFormed(Joined(z), lBits) && AcceptedAll(p, lBits, H, a, Joined(z), d)
  {
    hide RoundAccepts, WellFormedView, Binding;
    NeighboursAgree(p, lBits, H, a, z.p0, z.p1, d, 0);
    NeighboursAgree(p, lBits, H, a, z.p1, z.p2, d, 1);
    NeighboursAgree(p, lBits, H, a, z.p2, z.p0, d, 2);
    var t := Joined(z);
    assert OpenViews(0, t.keys, t.rs, t.views) == z.p0;
    assert OpenViews(1, t.keys, t.rs, t.views) == z.p1;
    assert OpenViews(2, t.keys, t.rs, t.views) == z.p2;
  }

  /** Special soundness, from the openings alone. */
  lemma OpeningsExtract(p: Primitives, lBits: nat, H: HashKey, a: Commit, z: Triple<Open>, d: Digest)
    requires WellFormedCommit(a) && LWords(lBits) < |H.A| && |H.b| > 0
    requires FitsOpen(z.p0, lBits) && FitsOpen(z.p1, lBits) && FitsOpen(z.p2, lBits)
    requires RoundAccepts(p, lBits, H, a, z.p0, d, 0)
    requires RoundAccepts(p, lBits, H, a, z.p1, d, 1)
    requires RoundAccepts(p, lBits, H, a, z.p2, d, 2)
    requires Binding(p, z.p0, z.p1) && Binding(p, z.p1, z.p2) && Binding(p, z.p2, z.p0)
    ensures WellFormed(Joined(z), lBits)
    ensures Xor3(MsgWords(Joined(z), lBits))
        == BitWord(RowTimes(H.A, XorVec3(Vectors(Joined(z))), lBits, 0) != H.b[0][0])
    ensures DigestFits(Joined(z), lBits, d)
  {
    hide RoundAccepts, WellFormedView, AcceptedAll, LowBitsCancel, Binding, RBytes, RowTimes, Xor3, XorVec3,
         CarriedSum;
    OpeningsJoin(p, lBits, H, a, z, d);
    RoundSoundness(p, lBits, H, a, Joined(z), d);
  }

  /** The digest is the hash of the opened vector with the recorded carry-ins, and its SHA-256 when
      the lowest recorded bits cancel. */
  ghost predicate DigestFits(t: Transcript, lBits: nat, d: Digest)
    requires WellFormed(t, lBits)
  {
    Prover.InputBytesLength(Vectors(t), lBits);
    var m := RBytes(XorVec3(Vectors(t)), lBits);
    && d == CarriedSum(LowBits(RecordedWords(t)), m)
    && (LowBitsCancel(InputBytes(Vectors(t), lBits), RecordedWords(t)) ==> d == Sha256.Sum(m))
  }

  // ----- completeness

  /** The transcript of a run with the given lowest carry bits; the prover's own has none. */
  ghost function RunTranscript(p: Primitives, keys: Triple<Bytes>, rs: Triple<Bytes>,
                               x: Triple<RVec>, m: Triple<Word>, lows: Lows, lBits: nat): Transcript
    requires ShareVectors(x, lBits)
  {
    Transcript(keys, rs, RunViews(x, m, KeyTapes(p, keys, lBits), lows, lBits))
  }

  lemma ColumnsRecord(ys: seq<Triple<Word>>)
    ensures forall i :: 0 <= i < |ys| ==> ys[i] == TapeWords(Columns(ys), i)
  {}

  lemma ViewsRead(x: Triple<RVec>, m: Triple<Word>, ys: seq<Triple<Word>>, keys: Triple<Bytes>, rs: Triple<Bytes>,
                  lBits: nat)
    requires ShareVectors(x, lBits) && |ys| == ViewWords(lBits)
    ensures var t := Transcript(keys, rs, ViewsOf(x, m, ys));
      WellFormed(t, lBits) && Vectors(t) == x && MsgWords(t, lBits) == m && RecordedWords(t) == Columns(ys)
  {
    hide StoreLE, LoadLE, ViewWords;
    LoadStoreLE(m.p0);
    LoadStoreLE(m.p1);
    LoadStoreLE(m.p2);
  }

  lemma RunIsWellFormed(p: Primitives, keys: Triple<Bytes>, rs: Triple<Bytes>, A: seq<Word>,
                        x: Triple<RVec>, m: Triple<Word>, lows: Lows, lBits: nat)
    requires ShareVectors(x, lBits) && LWords(lBits) < |A|
    ensures var t := RunTranscript(p, keys, rs, x, m, lows, lBits);
      && WellFormed(t, lBits) && WellFormedCommit(RunCommit(p, keys, rs, A, x, m, lows, lBits))
      && Vectors(t) == x && MsgWords(t, lBits) == m
      && SameLength(InputBytes(x, lBits))
      && Records(ProverRun(InputBytes(x, lBits), KeyTapes(p, keys, lBits), lows).0, RecordedWords(t))
  {
    hide ProverRun, KeyTapes, NumBlocks, InnerShares, HashViews, RBytes, WellFormed, Vectors, MsgWords, RecordedWords,
         ViewsOf, TapeWords, Columns;
    Prover.InputBytesLength(x, lBits);
    ProverBudget(InputBytes(x, lBits), KeyTapes(p, keys, lBits), lows);
    var ys := ProverRun(InputBytes(x, lBits), KeyTapes(p, keys, lBits), lows).0.ys;
    ViewsRead(x, m, ys, keys, rs, lBits);
    ColumnsRecord(ys);
  }

  /** For all shares that open to a vector and to the bit the commitment hides under it, all keys,
      nonces and lowest carry bits, every challenge is accepted on the transcript of that run, for
      the digest that run computes. */
  lemma RunAcceptedByAll(p: Primitives, lBits: nat, H: HashKey, keys: Triple<Bytes>, rs: Triple<Bytes>,
                         x: Triple<RVec>, m: Triple<Word>, lows: Lows, d: Digest)
    requires ShareVectors(x, lBits) && LWords(lBits) < |H.A| && |H.b| > 0
    requires d == CarriedSum(lows, RBytes(XorVec3(x), lBits))
    requires Xor3(m) == BitWord(RowTimes(H.A, XorVec3(x), lBits, 0) != H.b[0][0])
    ensures var a, t := RunCommit(p, keys, rs, H.A, x, m, lows, lBits), RunTranscript(p, keys, rs, x, m, lows, lBits);
      WellFormed(t, lBits) && WellFormedCommit(a) && AcceptedAll(p, lBits, H, a, t, d)
  {
    hide AcceptedAll, AllAccept, InnerShares, KeyTapes, RBytes, NumBlocks, RowTimes, HashViews, Records, LoadLE,
         StoreLE, WellFormed, ProverRun, CarriedSum, OpenWords, Xor3, XorBytes3, ReconstructShares, OpenVars,
         WellFormedCommit;
    RunIsWellFormed(p, keys, rs, H.A, x, m, lows, lBits);
    var a := RunCommit(p, keys, rs, H.A, x, m, lows, lBits);
    var t := RunTranscript(p, keys, rs, x, m, lows, lBits);
    var b, tapes := InputBytes(x, lBits), KeyTapes(p, keys, lBits);
    RunOpen(b, tapes, lows, a, d, RBytes(XorVec3(x), lBits), x, lBits);
    RunAccepted(b, tapes, lows, RecordedWords(t));
    RoundExact(p, lBits, H, a, t, d);
  }

  lemma RunOpen(b: Triple<Bytes>, tapes: Tapes, lows: Lows, a: Commit, d: Digest, m: Bytes, x: Triple<RVec>, lBits: nat)
    requires ShareVectors(x, lBits) && b == InputBytes(x, lBits) && m == RBytes(XorVec3(x), lBits)
    requires SameLength(b) && WellFormedCommit(a) && d == CarriedSum(lows, m)
    requires var outs := OutputShares(ProverRun(b, tapes, lows).1); a.yp0 == outs.p0 && a.yp1 == outs.p1
    ensures ReconstructShares(a, d) == OutputShares(ProverRun(b, tapes, lows).1)
  {
    hide ProverRun, CarryInHash, Sha256.WordsOf, OpenWords, XorBytes3, ReconstructShares, OpenVars, RBytes,
         DigestWords, PartyWords, Sha256.DigestBytes;
    var v := ProverRun(b, tapes, lows).1;
    BytesOpen(x, lBits);
    ProverOpens(b, tapes, lows);
    OutputSharesOpen(v);
    DigestWordsExact(d, CarryInHash(CarryIns(lows), m));
    ReconstructForced(a, d, OutputShares(v));
  }

  /** Completeness of a round: for all shares that open to a vector with that digest and to the bit
      the commitment hides under it, all keys and all nonces, every challenge is accepted on the
      prover's own transcript. */
  lemma RoundCompleteness(p: Primitives, lBits: nat, H: HashKey, keys: Triple<Bytes>, rs: Triple<Bytes>,
                          x: Triple<RVec>, m: Triple<Word>, d: Digest)
    requires ShareVectors(x, lBits) && LWords(lBits) < |H.A| && |H.b| > 0
    requires d == Sha256.Sum(RBytes(XorVec3(x), lBits))
    requires Xor3(m) == BitWord(RowTimes(H.A, XorVec3(x), lBits, 0) != H.b[0][0])
    ensures var a, t := RunCommit(p, keys, rs, H.A, x, m, [], lBits), RunTranscript(p, keys, rs, x, m, [], lBits);
      WellFormed(t, lBits) && WellFormedCommit(a) && AcceptedAll(p, lBits, H, a, t, d)
  {
    hide AcceptedAll, CarriedSum, RBytes, RowTimes, WellFormed, WellFormedCommit, RunCommit, RunTranscript, Xor3,
         Sha256.Sum;
    NoLowsSum(RBytes(XorVec3(x), lBits));
    RunAcceptedByAll(p, lBits, H, keys, rs, x, m, [], d);
  }
}
