/** The whole proof: committing to a bit with a proof file, and verifying one. */
module ZkProtocol {
  import opened Bits
  import opened Evaluations
  import opened Memory
  import opened Refinement
  import opened ByteViews
  import opened SharedHash
  import opened HaleviMicali
  import opened RoundTheorems
  import opened ZkIo
  import opened RoundCount
  import RandomOracle
  import RoundCarries
  import Prover
  import PlainHm
  import Sha256

  /** The primitives of the rounds, the hash of matrix, masked bit, digest and round commitment that
      starts the challenge chain, and the re-hash of that chain. */
  datatype Oracles =
    Oracles(prim: Primitives, chal: (HashKey, Digest, Commit) -> Digest, rehash: Digest -> Digest)

  // ----- sizes

  /** L_BITS for a message of one bit; everything here holds for any other length too. */
  const L_BITS: nat := 4 * 256 + 2 * 1 + 4

  /** It is the opening length of a plain commitment to one bit. The opening is 129 bytes, hashed in 3
      blocks; a tape is 8736 bytes, a record 17956, and the matrix has 34 words. */
  lemma ProtocolSizes()
    ensures L_BITS == PlainHm.LayoutOf(1).lBits
    ensures LBytes(L_BITS) == 129 && LWords(L_BITS) == 33 && AWords(L_BITS, 1) == 34
    ensures 4 * ViewWords(L_BITS) == 8736 && RecordSize(L_BITS) == 17956
  {}

  // ----- challenges

  /** Where the challenge chain of a round starts. */
  function ChainStart(o: Oracles, H: HashKey, d: Digest, a: Commit): Digest { o.chal(H, d, a) }

  /** Rounds whose chains start alike have the same matrix, masked bit, digest and commitment, unless the
      challenge hash collides. */
  lemma StartBinds(o: Oracles, H: HashKey, d: Digest, a: Commit, G: HashKey, f: Digest, c: Commit)
    requires o.chal(H, d, a) == o.chal(G, f, c) ==> H == G && d == f && a == c
    requires ChainStart(o, H, d, a) == ChainStart(o, G, f, c)
    ensures H == G && d == f && a == c
  {}

  /** The challenge chain holds a trit: the sampling loop of the source ends. */
  ghost predicate Answers(o: Oracles, H: HashKey, d: Digest, a: Commit) {
    RandomOracle.Yields(o.rehash, ChainStart(o, H, d, a), 1)
  }

  /** The first trit of the challenge chain. */
  ghost function ChallengeOf(o: Oracles, H: HashKey, d: Digest, a: Commit): (e: nat)
    requires Answers(o, H, d, a)
    ensures e < 3
    ensures forall n :: 0 < |RandomOracle.Trits(o.rehash, o.chal(H, d, a), n)| ==>
      e == RandomOracle.Trits(o.rehash, o.chal(H, d, a), n)[0]
  {
    RandomOracle.First(o.rehash, ChainStart(o, H, d, a), 1)[0]
  }

  method Challenge(o: Oracles, H: HashKey, d: Digest, a: Commit) returns (e: nat)
    requires Answers(o, H, d, a)
    ensures e == ChallengeOf(o, H, d, a)
  {
    var es := RandomOracle.H3(o.rehash, ChainStart(o, H, d, a), 1);
    e := es[0];
  }

  // ----- the matrix

  /** mpc_hm_expand_matrix: the key stream as words, the last word zero. */
  function ExpandMatrix(p: Primitives, key: Bytes, words: nat): (A: seq<Word>)
    requires words > 0
    ensures |A| == words && A[words - 1] == ZERO
    ensures forall k :: 0 <= k < 32 * (words - 1) ==> BitOf(A, k) == p.stream(key)(k / 8)[k % 8]
  {
    ToWords(StreamBytes(p, key, 4 * words), words)[words - 1 := ZERO]
  }

  function MatrixOf(p: Primitives, key: Bytes, lBits: nat): (A: seq<Word>)
    ensures |A| == LWords(lBits) + 1
  {
    ExpandMatrix(p, key, AWords(lBits, 1))
  }

  // ----- what one round must be

  /** Record k is in the file. */
  predicate Present(lBits: nat, data: Bytes, k: nat) {
    k * RecordSize(lBits) + RecordSize(lBits) <= |data|
  }

  /** The commitment and opening of a round, accepted for their own challenge. */
  ghost predicate RecordOk(o: Oracles, lBits: nat, H: HashKey, d: Digest, rec: (Commit, Open))
    requires LWords(lBits) < |H.A| && |H.b| > 0 && WellFormedCommit(rec.0) && WellFormedOpen(rec.1, lBits)
  {
    Answers(o, H, d, rec.0) && RoundAccepts(o.prim, lBits, H, rec.0, rec.1, d, ChallengeOf(o, H, d, rec.0))
  }

  ghost predicate RoundOk(o: Oracles, lBits: nat, H: HashKey, d: Digest, data: Bytes, k: nat)
    requires LWords(lBits) < |H.A| && |H.b| > 0
  {
    Present(lBits, data, k) && RecordOk(o, lBits, H, d, RecordAt(data, k, lBits))
  }

  function KeyOf(o: Oracles, lBits: nat, commitment: Bytes): (H: HashKey)
    requires |commitment| == 49
    ensures LWords(lBits) < |H.A| && |H.b| > 0
  {
    HashKey(MatrixOf(o.prim, ReadCommitment(commitment).0, lBits), ReadCommitment(commitment).1)
  }

  /** What hm_bit_verify decides about a commitment and a proof file. */
  ghost predicate ProofValid(o: Oracles, lBits: nat, commitment: Bytes, data: Bytes) {
    |commitment| == 49 && forall k :: 0 <= k < NUM_ROUNDS ==>
      RoundOk(o, lBits, KeyOf(o, lBits, commitment), ReadCommitment(commitment).2, data, k)
  }

  /** If record k is there, its challenge comes out of the chain. */
  ghost predicate RoundEnds(o: Oracles, lBits: nat, H: HashKey, d: Digest, data: Bytes, k: nat) {
    Present(lBits, data, k) ==> Answers(o, H, d, RecordAt(data, k, lBits).0)
  }

  /** Every challenge the verifier may have to sample comes out of its chain. */
  ghost predicate VerifierEnds(o: Oracles, lBits: nat, commitment: Bytes, data: Bytes) {
    |commitment| == 49 ==> forall k :: 0 <= k < NUM_ROUNDS ==>
      RoundEnds(o, lBits, KeyOf(o, lBits, commitment), ReadCommitment(commitment).2, data, k)
  }

  // ----- one run of a round

  /** All the randomness of one round. */
  datatype Coins = Coins(keys: Triple<Bytes>, rs: Triple<Bytes>, rnd0: RVec, rnd1: RVec, w0: Word, w1: Word)

  predicate WellFormedCoins(c: Coins, lBits: nat) {
    && |c.keys.p0| == |c.keys.p1| == |c.keys.p2| == 16 && |c.rs.p0| == |c.rs.p1| == |c.rs.p2| == 4
    && IsRVec(c.rnd0, lBits) && IsRVec(c.rnd1, lBits)
  }

  /** Sizes of what a round works on. */
  ghost predicate RoundShapes(lBits: nat, A: seq<Word>, r: RVec, c: Coins) {
    Canonical(r, lBits) && LWords(lBits) < |A| && WellFormedCoins(c, lBits)
  }

  /** The digest a run with the given lowest carry bits computes of an opening. */
  function OpeningDigest(lBits: nat, r: RVec, lows: Lows): Digest
    requires IsRVec(r, lBits)
  {
    CarriedSum(lows, RBytes(r, lBits))
  }

  /** Bit 0 of b hides the bit under row 0 of the matrix times r. */
  ghost predicate Masks(lBits: nat, H: HashKey, r: RVec, bit: bool)
    requires IsRVec(r, lBits) && LWords(lBits) < |H.A|
  {
    |H.b| == 1 && H.b[0][0] == (RowTimes(H.A, r, lBits, 0) != bit)
  }

  ghost function VecShares(lBits: nat, r: RVec, c: Coins): (x: Triple<RVec>)
    requires Canonical(r, lBits) && WellFormedCoins(c, lBits)
    ensures ShareVectors(x, lBits) && XorVec3(x) == r
  {
    ThirdVector(lBits, r, Normalize(c.rnd0, lBits), Normalize(c.rnd1, lBits), c.rnd0, c.rnd1);
    VectorShares(lBits, r, c.rnd0, c.rnd1)
  }

  ghost function MsgShares(bit: bool, c: Coins): (m: Triple<Word>)
    ensures Xor3(m) == BitWord(bit)
  {
    var m := WordShares(BitWord(bit), c.w0, c.w1);
    assert forall i :: 0 <= i < 32 ==> Xor3(m)[i] == BitWord(bit)[i];
    m
  }

  /** The commitment of one round's run. */
  ghost function RoundCommit(o: Oracles, lBits: nat, A: seq<Word>, r: RVec, bit: bool, c: Coins,
                             lows: Lows): (a: Commit)
    requires RoundShapes(lBits, A, r, c)
    ensures WellFormedCommit(a)
  {
    RunCommit(o.prim, c.keys, c.rs, A, VecShares(lBits, r, c), MsgShares(bit, c), lows, lBits)
  }

  /** Its opening of parties e and e + 1. */
  ghost function RoundOpen(o: Oracles, lBits: nat, r: RVec, bit: bool, c: Coins, lows: Lows, e: nat): Open
    requires Canonical(r, lBits) && WellFormedCoins(c, lBits)
  {
    var views := RunViews(VecShares(lBits, r, c), MsgShares(bit, c), KeyTapes(o.prim, c.keys, lBits), lows, lBits);
    OpenViews(e, c.keys, c.rs, views)
  }

  lemma RoundOpenFits(o: Oracles, lBits: nat, A: seq<Word>, r: RVec, bit: bool, c: Coins, lows: Lows, e: nat)
    requires RoundShapes(lBits, A, r, c) && e < 3
    ensures WellFormedOpen(RoundOpen(o, lBits, r, bit, c, lows, e), lBits)
  {
    hide RunViews, RunCommit, KeyTapes, ViewWords, Canonical, Xor3, XorVec3, WellFormedCommit;
    var x, m := VecShares(lBits, r, c), MsgShares(bit, c);
    RunIsWellFormed(o.prim, c.keys, c.rs, A, x, m, lows, lBits);
    OpenFits(e, c, RunTranscript(o.prim, c.keys, c.rs, x, m, lows, lBits), lBits);
  }

  /** A round is accepted for its own challenge. */
  lemma RunRoundOk(o: Oracles, lBits: nat, H: HashKey, d: Digest, r: RVec, bit: bool, c: Coins, lows: Lows)
    requires RoundShapes(lBits, H.A, r, c) && Masks(lBits, H, r, bit) && d == OpeningDigest(lBits, r, lows)
    requires Answers(o, H, d, RoundCommit(o, lBits, H.A, r, bit, c, lows))
    ensures var a := RoundCommit(o, lBits, H.A, r, bit, c, lows);
      var z := RoundOpen(o, lBits, r, bit, c, lows, ChallengeOf(o, H, d, a));
      WellFormedOpen(z, lBits) && RecordOk(o, lBits, H, d, (a, z))
  {
    hide RowTimes, RBytes, Answers, ChallengeOf, RunViews, RunCommit, RoundAccepts, VecShares, MsgShares, KeyTapes,
         CarriedSum, Xor3, XorVec3, ViewWords, AcceptedAll, WellFormedView, WellFormedCommit;
    var x, m := VecShares(lBits, r, c), MsgShares(bit, c);
    RunAcceptedByAll(o.prim, lBits, H, c.keys, c.rs, x, m, lows, d);
    var a := RunCommit(o.prim, c.keys, c.rs, H.A, x, m, lows, lBits);
    var t := RunTranscript(o.prim, c.keys, c.rs, x, m, lows, lBits);
    var e := ChallengeOf(o, H, d, a);
    RoundOpenFits(o, lBits, H.A, r, bit, c, lows, e);
    OpenedAccepted(o.prim, lBits, H, a, t, d, e);
  }

  lemma OpenedAccepted(p: Primitives, lBits: nat, H: HashKey, a: Commit, t: Transcript, d: Digest, e: nat)
    requires WellFormed(t, lBits) && WellFormedCommit(a) && LWords(lBits) < |H.A| && |H.b| > 0 && e < 3
    requires AcceptedAll(p, lBits, H, a, t, d)
    ensures var z := OpenViews(e, t.keys, t.rs, t.views);
      WellFormedView(z.views.own, lBits) && WellFormedView(z.views.next, lBits) && RoundAccepts(p, lBits, H, a, z, d, e)
  {
    hide RoundAccepts, WellFormedView;
    if e == 0 {} else if e == 1 {} else {}
  }

  lemma OpenFits(e: nat, c: Coins, t: Transcript, lBits: nat)
    requires e < 3 && WellFormed(t, lBits) && WellFormedCoins(c, lBits)
    ensures WellFormedOpen(OpenViews(e, c.keys, c.rs, t.views), lBits)
  {
    hide WellFormedView;
    if e == 0 {} else if e == 1 {} else {}
  }

  // ----- one record

  /** The record of one round's run. */
  ghost function RoundRecord(o: Oracles, lBits: nat, H: HashKey, d: Digest, r: RVec, bit: bool, c: Coins,
                             lows: Lows): (rec: Bytes)
    requires RoundShapes(lBits, H.A, r, c) && Answers(o, H, d, RoundCommit(o, lBits, H.A, r, bit, c, lows))
    ensures |rec| == RecordSize(lBits)
  {
    var a := RoundCommit(o, lBits, H.A, r, bit, c, lows);
    var e := ChallengeOf(o, H, d, a);
    RoundOpenFits(o, lBits, H.A, r, bit, c, lows, e);
    RecordBytes(a, RoundOpen(o, lBits, r, bit, c, lows, e), lBits)
  }

  /** Read back, it is accepted. */
  lemma RoundRecordOk(o: Oracles, lBits: nat, H: HashKey, d: Digest, r: RVec, bit: bool, c: Coins, lows: Lows)
    requires RoundShapes(lBits, H.A, r, c) && Masks(lBits, H, r, bit) && d == OpeningDigest(lBits, r, lows)
    requires Answers(o, H, d, RoundCommit(o, lBits, H.A, r, bit, c, lows))
    ensures RecordOk(o, lBits, H, d, DecodeRecord(RoundRecord(o, lBits, H, d, r, bit, c, lows), lBits))
  {
    hide ChallengeOf, Answers, RecordOk, Masks, RecordBytes, DecodeRecord, RoundCommit, RoundOpen, OpeningDigest;
    var a := RoundCommit(o, lBits, H.A, r, bit, c, lows);
    var e := ChallengeOf(o, H, d, a);
    RoundOpenFits(o, lBits, H.A, r, bit, c, lows, e);
    RunRoundOk(o, lBits, H, d, r, bit, c, lows);
    RecordRoundTrip(a, RoundOpen(o, lBits, r, bit, c, lows, e), lBits);
  }

  // ----- hm_bit_commit

  /** Three views a prover thread keeps from round to round. */
  ghost predicate Separate(v0: Prover.View, v1: Prover.View, v2: Prover.View, lBits: nat) {
    && v0 != v1 && v1 != v2 && v0 != v2 && v0.y != v1.y && v1.y != v2.y && v0.y != v2.y
    && v0.y.Length == v1.y.Length == v2.y.Length == ViewWords(lBits)
  }

  /** The body of the round loop of hm_bit_commit; room is how much the system writes at once. */
  method CommitRound(o: Oracles, lBits: nat, H: HashKey, d: Digest, r: RVec, bit: bool, c: Coins,
                     v0: Prover.View, v1: Prover.View, v2: Prover.View, buf: array<Byte>, f: ProofFile,
                     k: nat, room: nat)
    returns (ok: bool)
    requires RoundShapes(lBits, H.A, r, c) && Separate(v0, v1, v2, lBits) && buf.Length == RecordSize(lBits)
    requires Answers(o, H, d, RoundCommit(o, lBits, H.A, r, bit, c, []))
    modifies v0, v1, v2, v0.y, v1.y, v2.y, buf, f
    ensures ok <==> RecordSize(lBits) <= room
    ensures ok ==> f.data == WriteRecord(old(f.data), k, RoundRecord(o, lBits, H, d, r, bit, c, []))
  {
    hide Answers, ChallengeOf, RecordBytes, RunViews, RunCommit, VectorShares, WordShares, KeyTapes, XorVec3, Xor3,
         RecordSize, ViewWords, WriteRecord;
    var x, m := ShareSecrets(lBits, r, BitWord(bit), c.rnd0, c.rnd1, c.w0, c.w1);
    var a := ProveRound(o.prim, lBits, v0, v1, v2, c.keys, c.rs, H.A, x, m);
    assert a == RoundCommit(o, lBits, H.A, r, bit, c, []);
    var e := Challenge(o, H, d, a);
    var views := Triple(ViewVal(v0.x, v0.msg, v0.y[..]), ViewVal(v1.x, v1.msg, v1.y[..]),
                        ViewVal(v2.x, v2.msg, v2.y[..]));
    var z := OpenViews(e, c.keys, c.rs, views);
    assert z == RoundOpen(o, lBits, r, bit, c, [], e);
    RoundOpenFits(o, lBits, H.A, r, bit, c, [], e);
    ok := WriteRound(f, buf, k, a, z, lBits, room);
  }

  /** Every round is run, in whatever order the threads take them. */
  ghost predicate Schedule(order: seq<nat>) {
    && (forall i :: 0 <= i < |order| ==> order[i] < NUM_ROUNDS)
    && (forall k :: 0 <= k < NUM_ROUNDS ==> k in order)
  }

  /** The matrix, and the b the prover computes: bit 0 is set, the other bits are as they were. */
  ghost function CommittedKey(o: Oracles, lBits: nat, keyH: Bytes, r: RVec, bit: bool, b0: Byte): (H: HashKey)
    requires IsRVec(r, lBits)
    ensures H.A == MatrixOf(o.prim, keyH, lBits) && Masks(lBits, H, r, bit)
  {
    var A := MatrixOf(o.prim, keyH, lBits);
    HashKey(A, [b0[0 := RowTimes(A, r, lBits, 0) != bit]])
  }

  /** All a run of hm_bit_commit draws at random or finds in memory. */
  datatype Draw = Draw(rnd: RVec, keyH: Bytes, b0: Byte, coins: seq<Coins>)

  ghost predicate WellFormedDraw(w: Draw, lBits: nat) {
    && IsRVec(w.rnd, lBits) && |w.keyH| == 16 && |w.coins| == NUM_ROUNDS
    && forall k :: 0 <= k < |w.coins| ==> WellFormedCoins(w.coins[k], lBits)
  }

  ghost function DrawnKey(o: Oracles, lBits: nat, bit: bool, w: Draw): (H: HashKey)
    requires WellFormedDraw(w, lBits)
    ensures H.A == MatrixOf(o.prim, w.keyH, lBits) && |H.b| == 1
  {
    CommittedKey(o, lBits, w.keyH, Normalize(w.rnd, lBits), bit, w.b0)
  }

  ghost function DrawnDigest(lBits: nat, w: Draw, lows: Lows): Digest
    requires WellFormedDraw(w, lBits)
  {
    OpeningDigest(lBits, Normalize(w.rnd, lBits), lows)
  }

  /** The commitment string of a run with the given lowest carry bits; hm_bit_commit has none. */
  ghost function DrawnCommitment(o: Oracles, lBits: nat, bit: bool, w: Draw, lows: Lows): Bytes
    requires WellFormedDraw(w, lBits)
  {
    CommitmentString(w.keyH, DrawnKey(o, lBits, bit, w).b, DrawnDigest(lBits, w, lows))
  }

  lemma DrawnShapes(o: Oracles, lBits: nat, bit: bool, w: Draw, k: nat)
    requires WellFormedDraw(w, lBits) && k < NUM_ROUNDS
    ensures RoundShapes(lBits, DrawnKey(o, lBits, bit, w).A, Normalize(w.rnd, lBits), w.coins[k])
  {
    hide MatrixOf, CommittedKey, WellFormedCoins;
    NormalizeCanonical(w.rnd, lBits);
  }

  /** The challenge of round k comes out of its chain. */
  ghost predicate Challenged(o: Oracles, lBits: nat, bit: bool, w: Draw, lows: Lows, k: nat)
    requires WellFormedDraw(w, lBits) && k < NUM_ROUNDS
  {
    DrawnShapes(o, lBits, bit, w, k);
    var H := DrawnKey(o, lBits, bit, w);
    Answers(o, H, DrawnDigest(lBits, w, lows),
            RoundCommit(o, lBits, H.A, Normalize(w.rnd, lBits), bit, w.coins[k], lows))
  }

  /** All rounds end. */
  ghost predicate AllChallenged(o: Oracles, lBits: nat, bit: bool, w: Draw, lows: Lows)
    requires WellFormedDraw(w, lBits)
  {
    forall k :: 0 <= k < NUM_ROUNDS ==> Challenged(o, lBits, bit, w, lows, k)
  }

  /** The record of round k. */
  ghost function DrawnRecord(o: Oracles, lBits: nat, bit: bool, w: Draw, lows: Lows, k: nat): (rec: Bytes)
    requires WellFormedDraw(w, lBits) && k < NUM_ROUNDS && Challenged(o, lBits, bit, w, lows, k)
    ensures |rec| == RecordSize(lBits)
  {
    DrawnShapes(o, lBits, bit, w, k);
    RoundRecord(o, lBits, DrawnKey(o, lBits, bit, w), DrawnDigest(lBits, w, lows), Normalize(w.rnd, lBits), bit,
                w.coins[k], lows)
  }

  ghost function DrawnRecords(o: Oracles, lBits: nat, bit: bool, w: Draw, lows: Lows): (recs: seq<Bytes>)
    requires WellFormedDraw(w, lBits) && AllChallenged(o, lBits, bit, w, lows)
    ensures |recs| == NUM_ROUNDS && forall k :: 0 <= k < |recs| ==> |recs[k]| == RecordSize(lBits)
  {
    seq(NUM_ROUNDS, k requires 0 <= k < NUM_ROUNDS => DrawnRecord(o, lBits, bit, w, lows, k))
  }

  lemma DrawnRecordOk(o: Oracles, lBits: nat, bit: bool, w: Draw, lows: Lows, k: nat)
    requires WellFormedDraw(w, lBits) && k < NUM_ROUNDS && Challenged(o, lBits, bit, w, lows, k)
    ensures RecordOk(o, lBits, DrawnKey(o, lBits, bit, w), DrawnDigest(lBits, w, lows),
                     DecodeRecord(DrawnRecord(o, lBits, bit, w, lows, k), lBits))
  {
    hide RoundRecord, RecordOk, OpeningDigest, MatrixOf, Masks, Answers, RoundCommit, DecodeRecord;
    DrawnShapes(o, lBits, bit, w, k);
    RoundRecordOk(o, lBits, DrawnKey(o, lBits, bit, w), DrawnDigest(lBits, w, lows), Normalize(w.rnd, lBits), bit,
                  w.coins[k], lows);
  }

  /** A file that holds every round's record, at its offset, is a valid proof for the commitment. */
  lemma CommittedFileValid(o: Oracles, lBits: nat, bit: bool, w: Draw, lows: Lows, data: Bytes)
    requires WellFormedDraw(w, lBits) && AllChallenged(o, lBits, bit, w, lows)
    requires forall k :: 0 <= k < NUM_ROUNDS ==>
      Holds(data, k, RecordSize(lBits), DrawnRecords(o, lBits, bit, w, lows)[k])
    ensures ProofValid(o, lBits, DrawnCommitment(o, lBits, bit, w, lows), data)
  {
    hide DrawnRecord, Challenged, RecordOk, DrawnKey, DrawnDigest, RecordSize, ReadCommitment, CommitmentString,
         MatrixOf, WellFormedCoins, DecodeRecord;
    var H, d := DrawnKey(o, lBits, bit, w), DrawnDigest(lBits, w, lows);
    CommitmentRoundTrip(w.keyH, H.b, d);
    forall k | 0 <= k < NUM_ROUNDS ensures RoundOk(o, lBits, H, d, data, k) {
      assert Holds(data, k, RecordSize(lBits), DrawnRecords(o, lBits, bit, w, lows)[k]);
      DrawnRecordOk(o, lBits, bit, w, lows, k);
    }
  }

  /** End-to-end completeness: in whatever order the rounds finish, the file is the same and it is a
      valid proof for the commitment. */
  lemma AnyScheduleValid(o: Oracles, lBits: nat, bit: bool, w: Draw, lows: Lows, order: seq<nat>)
    requires WellFormedDraw(w, lBits) && AllChallenged(o, lBits, bit, w, lows) && Schedule(order)
    ensures WriteAll(order, DrawnRecords(o, lBits, bit, w, lows), RecordSize(lBits))
        == Concat(DrawnRecords(o, lBits, bit, w, lows))
    ensures ProofValid(o, lBits, DrawnCommitment(o, lBits, bit, w, lows), Concat(DrawnRecords(o, lBits, bit, w, lows)))
  {
    hide DrawnRecord, WriteAll, ProofValid, DrawnCommitment, WellFormedDraw, Concat, Holds, AllChallenged;
    var recs := DrawnRecords(o, lBits, bit, w, lows);
    AnyOrderSameFile(order, recs, RecordSize(lBits));
    CommittedFileValid(o, lBits, bit, w, lows, Concat(recs));
  }

  /** mpc_hm_expand_matrix, from the key stream. */
  method ExpandKey(o: Oracles, key: Bytes, lBits: nat) returns (A: seq<Word>)
    ensures A == MatrixOf(o.prim, key, lBits)
  {
    hide StreamBytes;
    var words := AWords(lBits, 1);
    var stream := KeyStream(o.prim, key, 4 * words);
    A := ToWords(stream, words)[words - 1 := ZERO];
  }

  /** mpc_hm_hash_init: the matrix from its key, and b over whatever bytes it held. */
  method InitHash(o: Oracles, lBits: nat, keyH: Bytes, r: RVec, bit: bool, b0: Byte) returns (H: HashKey)
    requires IsRVec(r, lBits)
    ensures H == CommittedKey(o, lBits, keyH, r, bit, b0)
  {
    hide RowTimes;
    var A := ExpandKey(o, keyH, lBits);
    var b := new Byte[1](_ => b0);
    var msg := StoreLE(BitWord(bit));
    HashInit(A, b, msg, r, lBits, 1);
    H := HashKey(A, b[..]);
    OneBit(b[..], b0, RowTimes(A, r, lBits, 0) != bit);
  }

  lemma OneBit(b: Bytes, b0: Byte, v: bool)
    requires |b| == 1 && ByteBit(b, 0) == v && forall i :: 1 <= i < 8 ==> ByteBit(b, i) == ByteBit([b0], i)
    ensures b == [b0[0 := v]]
  {
    forall i | 0 <= i < 8 ensures b[0][i] == b0[0 := v][i] {
      if i > 0 { assert ByteBit(b, i) == ByteBit([b0], i); }
    }
    assert b[0] == b0[0 := v];
  }

  /** hm_bit_commit, for every run that ends. The rounds run in the given order; rooms[k] is how much
      the system writes of record k, and once a write falls short the remaining rounds are skipped. */
  method BitCommit(o: Oracles, lBits: nat, bit: bool, w: Draw, order: seq<nat>, rooms: seq<nat>)
    returns (ok: bool, commitment: Bytes, opening: Bytes, f: ProofFile)
    requires WellFormedDraw(w, lBits) && AllChallenged(o, lBits, bit, w, []) && Schedule(order) && |rooms| == NUM_ROUNDS
    ensures fresh(f)
    ensures opening == RBytes(Normalize(w.rnd, lBits), lBits)
    ensures commitment == DrawnCommitment(o, lBits, bit, w, [])
    ensures commitment == CommitmentString(w.keyH, DrawnKey(o, lBits, bit, w).b, Sha256.Sum(opening))
    ensures ok <==> forall k :: 0 <= k < NUM_ROUNDS ==> RecordSize(lBits) <= rooms[k]
    ensures ok ==> f.data == Concat(DrawnRecords(o, lBits, bit, w, [])) && ProofValid(o, lBits, commitment, f.data)
  {
    hide Challenged, DrawnRecord, RoundRecord, RBytes, Sha256.Sum, CarriedSum, ViewWords, CommittedKey, RecordSize,
         WriteRecord, WriteAll, Concat, ProofValid, MatrixOf, WellFormedCoins, Canonical, Answers, RoundCommit,
         CommitmentString;
    var r := Normalize(w.rnd, lBits);
    opening := RBytes(r, lBits);
    var H := InitHash(o, lBits, w.keyH, r, bit, w.b0);
    var d := Sha256.Sum(opening);
    NoLowsSum(opening);
    commitment := CommitmentString(w.keyH, H.b, d);
    f := new ProofFile();
    var v0 := new Prover.View(ViewWords(lBits));
    var v1 := new Prover.View(ViewWords(lBits));
    var v2 := new Prover.View(ViewWords(lBits));
    var buf := new Byte[RecordSize(lBits)](_ => Zeros(8));
    var error := false;
    var i := 0;
    ghost var recs := DrawnRecords(o, lBits, bit, w, []);
    NothingWritten(recs, RecordSize(lBits));
    assert order[..0] == [];
    while i < |order|
      invariant 0 <= i <= |order|
      invariant Separate(v0, v1, v2, lBits)
      invariant fresh(v0) && fresh(v1) && fresh(v2) && fresh(v0.y) && fresh(v1.y) && fresh(v2.y)
      invariant !error ==> f.data == WriteAll(order[..i], recs, RecordSize(lBits))
      invariant !error ==> forall j :: 0 <= j < i ==> RecordSize(lBits) <= rooms[order[j]]
      invariant error ==> exists k :: 0 <= k < NUM_ROUNDS && rooms[k] < RecordSize(lBits)
    {
      if !error {
        var k := order[i];
        DrawnRound(o, lBits, bit, w, k);
        var done := CommitRound(o, lBits, H, d, r, bit, w.coins[k], v0, v1, v2, buf, f, k, rooms[k]);
        assert order[..i + 1][..i] == order[..i];
        if done { RecordWritten(order[..i + 1], recs, RecordSize(lBits)); }
        if !done { error := true; }
      }
      i := i + 1;
    }
    assert order[..i] == order;
    ok := !error;
    if ok {
      forall k | 0 <= k < NUM_ROUNDS ensures RecordSize(lBits) <= rooms[k] {
        var j := PlaceOf(order, k);
      }
      AnyScheduleValid(o, lBits, bit, w, [], order);
    }
  }

  lemma NothingWritten(recs: seq<Bytes>, size: nat)
    ensures WriteAll([], recs, size) == []
  {}

  lemma RecordWritten(order: seq<nat>, recs: seq<Bytes>, size: nat)
    requires 0 < |order| && forall i :: 0 <= i < |order| ==> order[i] < |recs|
    requires forall i :: 0 <= i < |recs| ==> |recs[i]| == size
    ensures var k := order[|order| - 1];
      WriteAll(order, recs, size) == WriteRecord(WriteAll(order[..|order| - 1], recs, size), k, recs[k])
  {}

  lemma PlaceOf(order: seq<nat>, k: nat) returns (j: nat)
    requires k in order
    ensures j < |order| && order[j] == k
  {
    j :| 0 <= j < |order| && order[j] == k;
  }

  lemma DrawnRound(o: Oracles, lBits: nat, bit: bool, w: Draw, k: nat)
    requires WellFormedDraw(w, lBits) && k < NUM_ROUNDS && Challenged(o, lBits, bit, w, [], k)
    ensures DrawnDigest(lBits, w, []) == Sha256.Sum(RBytes(Normalize(w.rnd, lBits), lBits))
    ensures var r, H, d := Normalize(w.rnd, lBits), DrawnKey(o, lBits, bit, w), DrawnDigest(lBits, w, []);
      && RoundShapes(lBits, H.A, r, w.coins[k])
      && Answers(o, H, d, RoundCommit(o, lBits, H.A, r, bit, w.coins[k], []))
      && DrawnRecord(o, lBits, bit, w, [], k) == RoundRecord(o, lBits, H, d, r, bit, w.coins[k], [])
  {
    hide RoundRecord, DrawnKey, WellFormedCoins, Answers, RoundCommit, CarriedSum, Sha256.Sum, RBytes;
    DrawnShapes(o, lBits, bit, w, k);
    NoLowsSum(RBytes(Normalize(w.rnd, lBits), lBits));
  }

  // ----- hm_bit_verify

  /** The body of the round loop of hm_bit_verify. */
  method CheckRound(o: Oracles, lBits: nat, H: HashKey, d: Digest, ve: Prover.View, ve1: Prover.View, buf: array<Byte>,
                    f: ProofFile, k: nat) returns (ok: bool)
    requires LWords(lBits) < |H.A| && |H.b| > 0 && RecordSize(lBits) <= buf.Length
    requires ve != ve1 && ve.y != ve1.y && ve.y.Length == ve1.y.Length == ViewWords(lBits)
    requires RoundEnds(o, lBits, H, d, f.data, k)
    modifies ve, ve1, ve.y, ve1.y, buf
    ensures ok <==> RoundOk(o, lBits, H, d, f.data, k)
  {
    hide DecodeRecord, ViewWords, RoundAccepts, Answers, ChallengeOf, RecordSize;
    var r := ReadRound(f, buf, k, lBits, ve, ve1);
    if r.Failed? { return false; }
    var e := Challenge(o, H, d, r.a);
    ok := VerifyRound(o.prim, lBits, H, r.a, r.keys, r.rs, ve, ve1, d, e);
  }

  /** hm_bit_verify, for every run that ends. Accepts exactly the valid proofs, whatever the order of
      the rounds. */
  method BitVerify(o: Oracles, lBits: nat, commitment: Bytes, f: ProofFile, order: seq<nat>) returns (ok: bool)
    requires Schedule(order) && VerifierEnds(o, lBits, commitment, f.data)
    ensures ok <==> ProofValid(o, lBits, commitment, f.data)
  {
    hide RoundOk, RoundEnds, MatrixOf, ViewWords, RecordSize, ReadCommitment;
    if |commitment| != 49 { return false; }
    var c := ReadCommitment(commitment);
    var A := ExpandKey(o, c.0, lBits);
    var H, d := HashKey(A, c.1), c.2;
    assert H == KeyOf(o, lBits, commitment);
    var ve := new Prover.View(ViewWords(lBits));
    var ve1 := new Prover.View(ViewWords(lBits));
    var buf := new Byte[RecordSize(lBits) + 16](_ => Zeros(8));
    var error := false;
    var i := 0;
    while i < |order|
      invariant 0 <= i <= |order|
      invariant fresh(ve) && fresh(ve1) && fresh(ve.y) && fresh(ve1.y)
      invariant error ==> exists k :: 0 <= k < NUM_ROUNDS && !RoundOk(o, lBits, H, d, f.data, k)
      invariant !error ==> forall j :: 0 <= j < i ==> RoundOk(o, lBits, H, d, f.data, order[j])
    {
      if !error {
        var good := CheckRound(o, lBits, H, d, ve, ve1, buf, f, order[i]);
        if !good { error := true; }
      }
      i := i + 1;
    }
    ok := !error;
    if ok {
      forall k | 0 <= k < NUM_ROUNDS ensures RoundOk(o, lBits, H, d, f.data, k) {
        var j := PlaceOf(order, k);
      }
    }
  }

  /** On a valid proof every challenge comes out of its chain. */
  lemma ValidEnds(o: Oracles, lBits: nat, commitment: Bytes, data: Bytes)
    requires ProofValid(o, lBits, commitment, data)
    ensures VerifierEnds(o, lBits, commitment, data)
  {
    hide RoundOk, RoundEnds, ReadCommitment, KeyOf;
    if |commitment| == 49 {
      var H, d := KeyOf(o, lBits, commitment), ReadCommitment(commitment).2;
      forall k | 0 <= k < NUM_ROUNDS ensures RoundEnds(o, lBits, H, d, data, k) {
        OkEnds(o, lBits, H, d, data, k);
      }
    }
  }

  lemma OkEnds(o: Oracles, lBits: nat, H: HashKey, d: Digest, data: Bytes, k: nat)
    requires LWords(lBits) < |H.A| && |H.b| > 0 && RoundOk(o, lBits, H, d, data, k)
    ensures RoundEnds(o, lBits, H, d, data, k)
  {
    hide Answers, RoundAccepts, RecordSize, DecodeRecord;
  }

  /** A bit committed under any schedule of the rounds is accepted under any schedule. */
  method CommitThenVerify(o: Oracles, lBits: nat, bit: bool, w: Draw, order: seq<nat>, rooms: seq<nat>,
                          verifyOrder: seq<nat>)
    returns (committed: bool, accepted: bool)
    requires WellFormedDraw(w, lBits) && AllChallenged(o, lBits, bit, w, [])
    requires Schedule(order) && Schedule(verifyOrder) && |rooms| == NUM_ROUNDS
    ensures committed <==> forall k :: 0 <= k < NUM_ROUNDS ==> RecordSize(lBits) <= rooms[k]
    ensures accepted <==> committed
  {
    hide ProofValid, VerifierEnds, AllChallenged, DrawnCommitment, DrawnRecords, WellFormedDraw, RBytes, Concat,
         RecordSize, CommitmentString;
    var ok, commitment, opening, f := BitCommit(o, lBits, bit, w, order, rooms);
    committed := ok;
    if !ok { return committed, false; }
    ValidEnds(o, lBits, commitment, f.data);
    accepted := BitVerify(o, lBits, commitment, f, verifyOrder);
  }

  // ----- what a valid proof does not say

  /** For every draw there is a commitment string whose digest is not the SHA-256 of the shared vector,
      and, if every challenge comes out of its chain, a file that is a valid proof for it: the run in
      which one lowest carry bit of the last gate of every round is set. */
  lemma ValidWrongDigest(o: Oracles, lBits: nat, bit: bool, w: Draw) returns (lows: Lows, commitment: Bytes)
    requires WellFormedDraw(w, lBits)
    ensures commitment == DrawnCommitment(o, lBits, bit, w, lows) && |commitment| == 49
    ensures ReadCommitment(commitment).2 != Sha256.Sum(RBytes(Normalize(w.rnd, lBits), lBits))
    ensures AllChallenged(o, lBits, bit, w, lows) ==>
      ProofValid(o, lBits, commitment, Concat(DrawnRecords(o, lBits, bit, w, lows)))
  {
    hide ProofValid, AllChallenged, DrawnRecords, RBytes, Concat, CommitmentString, ReadCommitment, CarriedSum,
         Sha256.Sum, RecordSize, Holds, CommittedKey, WellFormedCoins;
    var m := RBytes(Normalize(w.rnd, lBits), lBits);
    lows := RoundCarries.WrongLows(|m|);
    RoundCarries.WrongSumDiffers(m);
    commitment := DrawnCommitment(o, lBits, bit, w, lows);
    CommitmentRoundTrip(w.keyH, DrawnKey(o, lBits, bit, w).b, DrawnDigest(lBits, w, lows));
    if AllChallenged(o, lBits, bit, w, lows) {
      AnyScheduleValid(o, lBits, bit, w, lows, InOrder());
    }
  }

  /** The schedule of a single thread. */
  function InOrder(): (order: seq<nat>)
    ensures Schedule(order)
  {
    var order := seq(NUM_ROUNDS, i requires 0 <= i < NUM_ROUNDS => i as nat);
    assert Schedule(order) by {
      forall k | 0 <= k < NUM_ROUNDS ensures k in order { assert order[k] == k; }
    }
    order
  }
}
