/** Which digests an accepted round can have: the unchecked lowest carry bits, seen from a round. */
module RoundCarries {
  import opened Bits
  import opened Shares
  import opened Evaluations
  import opened Padding
  import opened Memory
  import opened Refinement
  import opened Budget
  import opened Soundness
  import opened SpecialSoundness
  import opened LowCarries
  import opened ByteViews
  import opened SharedHash
  import opened HaleviMicali
  import opened RoundTheorems
  import Sha256

  /** Lowest bits, for an input of len bytes, that are clear but for one at the last gate. */
  ghost function WrongLows(len: nat): Lows {
    NumBlocksLeast(len, 0);
    OneLow(GATES_PER_BLOCK * NumBlocks(len))
  }

  /** The digest of the run that starts from them is never the SHA-256 of the bytes. */
  lemma WrongSumDiffers(m: Bytes)
    ensures CarriedSum(WrongLows(|m|), m) != Sha256.Sum(m)
  {
    hide CarryInHash, Sha256.Hash, Sha256.DigestBytes, CarryIns, OnlyLast, OneLow, NumBlocks, DigestWords,
         Sha256.WordsOf;
    NumBlocksLeast(|m|, 0);
    var c := CarryIns(WrongLows(|m|));
    LastCarryMatters(c, m);
    var v, u := CarryInHash(c, m), Sha256.Hash(Sha256.BitString(m));
    DigestWordsExact(Sha256.Sum(m), u);
    DigestWordsExact(Sha256.Sum(m), v);
    WordsDiffer(v, u);
  }

  /** A round accepted for all challenges, with these keys, nonces, input shares and message shares. */
  ghost predicate AcceptedRound(p: Primitives, lBits: nat, H: HashKey, keys: Triple<Bytes>, rs: Triple<Bytes>,
                                x: Triple<RVec>, m: Triple<Word>, a: Commit, t: Transcript, d: Digest)
    requires LWords(lBits) < |H.A| && |H.b| > 0
  {
    && t.keys == keys && t.rs == rs && WellFormed(t, lBits) && WellFormedCommit(a)
    && Vectors(t) == x && MsgWords(t, lBits) == m && AcceptedAll(p, lBits, H, a, t, d)
  }

  ghost predicate Masked(lBits: nat, H: HashKey, x: Triple<RVec>, m: Triple<Word>)
    requires ShareVectors(x, lBits) && LWords(lBits) < |H.A| && |H.b| > 0
  {
    Xor3(m) == BitWord(RowTimes(H.A, XorVec3(x), lBits, 0) != H.b[0][0])
  }

  ghost predicate DigestOf(m: Bytes, lows: Lows, d: Digest) { d == CarriedSum(lows, m) }

  /** The run with the given lowest bits is such a round, for the digest it computes. */
  lemma RunIsAcceptedRound(p: Primitives, lBits: nat, H: HashKey, keys: Triple<Bytes>, rs: Triple<Bytes>,
                           x: Triple<RVec>, m: Triple<Word>, lows: Lows)
    returns (a: Commit, t: Transcript)
    requires ShareVectors(x, lBits) && LWords(lBits) < |H.A| && |H.b| > 0 && Masked(lBits, H, x, m)
    ensures AcceptedRound(p, lBits, H, keys, rs, x, m, a, t, CarriedSum(lows, RBytes(XorVec3(x), lBits)))
  {
    hide AcceptedAll, CarriedSum, RBytes, RowTimes, WellFormedView, WellFormedCommit, RunCommit, RunViews, Xor3,
         XorVec3, ProverRun, Records;
    a, t := RunCommit(p, keys, rs, H.A, x, m, lows, lBits), RunTranscript(p, keys, rs, x, m, lows, lBits);
    RunIsWellFormed(p, keys, rs, H.A, x, m, lows, lBits);
    RunAcceptedByAll(p, lBits, H, keys, rs, x, m, lows, CarriedSum(lows, RBytes(XorVec3(x), lBits)));
  }

  /** The digests an accepted round can have are exactly the hashes of its opened vector with some
      carry-ins, and its message is exactly the bit hidden under that vector. */
  lemma RoundDigests(p: Primitives, lBits: nat, H: HashKey, keys: Triple<Bytes>, rs: Triple<Bytes>,
                     x: Triple<RVec>, m: Triple<Word>, d: Digest)
    requires ShareVectors(x, lBits) && LWords(lBits) < |H.A| && |H.b| > 0
    ensures (exists a, t :: AcceptedRound(p, lBits, H, keys, rs, x, m, a, t, d))
      <==> Masked(lBits, H, x, m) && exists lows :: DigestOf(RBytes(XorVec3(x), lBits), lows, d)
  {
    hide AcceptedAll, CarriedSum, RBytes, RowTimes, WellFormedView, WellFormedCommit, Xor3, XorVec3, LowBits,
         LowBitsCancel;
    if a, t :| AcceptedRound(p, lBits, H, keys, rs, x, m, a, t, d) {
      RoundSoundness(p, lBits, H, a, t, d);
      assert DigestOf(RBytes(XorVec3(x), lBits), LowBits(RecordedWords(t)), d);
    }
    if Masked(lBits, H, x, m) && exists lows :: DigestOf(RBytes(XorVec3(x), lBits), lows, d) {
      var lows :| DigestOf(RBytes(XorVec3(x), lBits), lows, d);
      var a, t := RunIsAcceptedRound(p, lBits, H, keys, rs, x, m, lows);
    }
  }

  /** Without the hypothesis on the lowest bits, soundness fails for every vector: some digest that is
      not its SHA-256 is accepted for all three challenges. */
  lemma RoundWrong(p: Primitives, lBits: nat, H: HashKey, keys: Triple<Bytes>, rs: Triple<Bytes>,
                   x: Triple<RVec>, m: Triple<Word>)
    returns (a: Commit, t: Transcript, d: Digest)
    requires ShareVectors(x, lBits) && LWords(lBits) < |H.A| && |H.b| > 0 && Masked(lBits, H, x, m)
    ensures AcceptedRound(p, lBits, H, keys, rs, x, m, a, t, d) && d != Sha256.Sum(RBytes(XorVec3(x), lBits))
  {
    hide AcceptedRound, CarriedSum, RBytes, Masked, XorVec3, WrongLows, Sha256.Sum;
    var b := RBytes(XorVec3(x), lBits);
    d := CarriedSum(WrongLows(|b|), b);
    a, t := RunIsAcceptedRound(p, lBits, H, keys, rs, x, m, WrongLows(|b|));
    WrongSumDiffers(b);
  }
}
