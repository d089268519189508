# A verified model of the Halevi-Micali commitment and its zero-knowledge proof

The repository commits to a message with a Halevi-Micali commitment (a Toeplitz product masks the
message, SHA-256 binds the opening) and proves in zero knowledge, by the MPC-in-the-head method of
ZKBoo, that a committed bit is known: 136 rounds, in each of which three simulated parties evaluate
SHA-256 on XOR shares of the opening, and a verifier replays two of them.

This project models that code in Dafny 4.11 and proves what it is for. `dafny verify dfyconfig.toml`
checks all of it.

## How it is built

Words are 32 booleans and bytes are 8, least significant bit first (`Bits`); `Val` gives their number.
`Sha256` is FIPS 180-4 (sections 3.2, 4.1.2, 4.2.2, 5.1.1, 5.2.1, 5.3.3 and 6.2.2), on bit strings of
every length; its tables are proved to be what the standard derives from the first primes
(`Sha256Constants`).

The SHA-256 circuit is written once (`Circuit`), over an abstract kind of share and an abstract state
that only ADD and AND gates touch. `Evaluations` gives it four meanings: plain words with a carry-in
bit per gate, the prover's three shares, a verifier's two shares, and the three verifiers side by side
on one triple of recorded words. One simulation argument (`Circuit.SimulateBlocks`) lifts any relation
that every gate keeps to whole runs over any number of blocks; refinement, completeness, special
soundness, uniqueness, the gate budget and two-view privacy are each one relation proved gate by gate.

The imperative code is modelled imperatively and proved against those functions: `Prover` (class
`Machine` with the counters, the views and the word schedule in arrays), `Verifier` (early exits
included), `SharedHash`, `HaleviMicali`, `PlainContext` (class `HmContext`), `RandomOracle`, `ZkIo`
(class `ProofFile`) and `ZkProtocol`.

Main results, in the order of their difficulty:

- Acceptance is characterised exactly. All three challenges accept one triple of recorded words if and
  only if those words are the ones the circuit forces from inputs, tapes and the lowest bits of the
  recorded words (`Soundness.AcceptanceExact`, `RoundTheorems.RoundExact`). Special soundness
  (`SpecialSoundness.AcceptedIsSha256`, `RoundTheorems.RoundSoundness`, and `OpeningsExtract` from three
  separate openings), uniqueness of the transcript and completeness follow, and so does where soundness
  fails (`LowCarries`, `RoundCarries`, `ZkProtocol.ValidWrongDigest`; see below).
- One challenge alone, which is all a verifier sees of a round, determines everything in the round
  commitment but the hash of the closed view (`SingleChallenge.OneChallengeCommit`).
- Two-view privacy: the third party's tape can be rewritten so that any other input with the same
  opened shares gives the same opened views; the tapes that do are exactly those that agree with it but
  for bit 31 of the words of ADD gates (`Privacy`, `RoundPrivacy`).
- The prover computes SHA-256 for every input length, sharing and tape
  (`Refinement.ProverRefinesSha256`), in exactly 728 gates a block (`Budget.ProverBudget`).
- A bit committed under any order of the rounds is accepted under any order
  (`ZkProtocol.CommitThenVerify`), and the verifier accepts exactly the valid proof files.
- The plain context accepts exactly the canonical openings, exactly one message each, over any sequence
  of calls (`PlainContext.Verify`, `PlainHm.OpensSomeMessage`, `PlainHm.OpensOneMessage`,
  `PlainContext.RunCalls`).

## Where the code says less than its purpose

- `mpc_ADD_verify` compares carry bits 1 to 31 only, so bit 0 of a recorded carry word is a free
  carry-in of that gate (`src/mpc_arithmetic.c:129-141`). As a consequence special soundness fails for
  every input, at every level:
  - a gate: the checks pass and the sum is wrong for all shares and tapes
    (`Shares.ChecksAloneInsufficient`); an accepted gate is right if and only if the three low bits
    cancel (`Shares.AcceptedAddExact`);
  - a run: an accepted transcript can open to exactly the hashes of its input with some carry-ins
    (`LowCarries.AcceptedWords`), one of which is never its SHA-256 (`LowCarries.AcceptedWrong`); all
    its gates are right if and only if the low bits cancel at every ADD gate
    (`LowCarries.AcceptedExact`), and it is the prover's own if and only if they are clear
    (`SpecialSoundness.AcceptedIsHonest`);
  - a round: the digests accepted for all three challenges are exactly those hashes
    (`RoundCarries.RoundDigests`, `RoundCarries.RoundWrong`);
  - a file: for every draw a commitment string with a digest that is not the SHA-256 of the shared
    vector has a valid proof file, if all its challenges come out (`ZkProtocol.ValidWrongDigest`).

  The soundness theorems hold for all accepted transcripts; what they say of SHA-256 they say where the
  low bits cancel, and otherwise they give the carry-ins.
- The comment at `src/shared.h:16-17` promises a soundness error of 2^-80 for 136 rounds. (2/3)^136 is
  larger: 136 rounds are the least for 2^-79 and one short for 2^-80 (`RoundCount.RoundsLeast`,
  `RoundCount.OneRoundShort`).
- Challenge 0 opens the two parties whose output shares are in the commitment, and no check of it
  involves the digest (`SingleChallenge.OneChallengeDigest`).
- `hm_bit_commit` sets only the first `MSG_BITS` bits of `b`, on uninitialised memory; the other bits of
  the byte are an arbitrary input here (`ZkProtocol.InitHash`), and are hashed and compared as they are.
- The comment at `src/prg.c:17-18` counts 2912 bits of randomness per block; the code and
  `src/shared.h:40-42` use 2912 bytes, which is 728 words, one per gate. The comment at
  `src/prg.h:16-18` counts 664 ADD and 64 AND gates; there are 600 and 128 (`Budget.BlockAdds`).
- A share read from a proof file is never tested for bits past `L_BITS`
  (`src/mpc_sha256_verifier.c:45-46`): the products mask them (`SharedHash.RowTimesBits`) while SHA-256
  reads whole bytes. The extracted opening is therefore the byte string that was hashed, and the bit it
  hides is a function of its first `L_BITS` bits.

## Model

| member | source | states |
|---|---|---|
| `Bits.RippleAdds` | src/mpc_arithmetic.c:24-45 | a carry string that ripples by majority turns XOR into addition with carry-in modulo 2^32 |
| `Bits.AddAssociates` | src/mpc_sha256_prover.c:88-92 | modular addition may be regrouped, so the source's order of additions is the standard's |
| `Sha256Constants.PrimesExact` | src/mpc_sha256.h:13-24 | the listed primes are the first 64, in order |
| `Sha256Constants.RoundConstantsExact` | src/mpc_sha256.h:13-24 | word i of the table holds the first 32 fractional bits of the cube root of prime number i (FIPS 180-4 section 4.2.2) |
| `Sha256Constants.InitialHashExact` | src/mpc_sha256.h:10-11 | the initial words hold those of the square roots of the first eight primes (section 5.3.3) |
| `Sha256Constants.FractionsUnique` | src/mpc_sha256.h:10-24 | no other number is such a fraction of the same prime |
| `Sha256.SigmaBits` | src/mpc_sha256_prover.c:70-86 | rotations and shifts of the four sigma functions, bit by bit |
| `Sha256.DigestOrder` | src/mpc_core_funcs.h:55-60 | the digest is the eight words in order, most significant byte first |
| `Shares.AndShare` | src/mpc_arithmetic.c:85-87 | every bit of one party's AND share is the five-term XOR of products and tape bits |
| `Shares.AndSharesOpen` | src/mpc_arithmetic.c:76-95 | for all shares and tape words the three outputs open to the AND of the opened inputs |
| `Shares.NextCarriesOpen` | src/mpc_arithmetic.c:33-40 | one masked carry step opens to the majority of the opened bits |
| `Shares.CarriesRipple` | src/mpc_arithmetic.c:14-41 | the XOR of the carry shares is the true ripple carry at every bit |
| `Shares.SumSharesOpen` | src/mpc_arithmetic.c:11-51 | for all shares and tape words the ADD outputs open to x + y + carry-in modulo 2^32 |
| `Shares.ChecksExact` | src/mpc_arithmetic.c:129-141 | the three carry checks hold if and only if all three words are the ripple from their own low bits |
| `Shares.CarriesPassChecks` | src/mpc_arithmetic.c:117-147 | words the prover records pass every party's check |
| `Shares.AcceptedAddExact` | src/mpc_arithmetic.c:117-147 | an accepted gate opens to x + y + c for c the XOR of the recorded bits 0, and to x + y exactly when they cancel |
| `Shares.ChecksAloneInsufficient` | src/mpc_arithmetic.c:129-141 | for all shares and tape words, the carry words started from one set low bit pass all three checks and open to a wrong sum |
| `Circuit.SimulateRound` | src/mpc_sha256_prover.c:108-156 | a relation kept by every gate is kept by one compression round |
| `Circuit.SimulateSchedule` | src/mpc_sha256_prover.c:69-93 | a relation kept by every gate is kept by the message schedule |
| `Circuit.SimulateRounds` | src/mpc_sha256_prover.c:108-156 | a relation kept by every gate is kept by the 64 rounds |
| `Circuit.SimulateBlock` | src/mpc_sha256_prover.c:57-166 | a relation kept by every gate is kept by a block with its eight closing additions |
| `Circuit.SimulateBlocks` | src/mpc_sha256_prover.c:57-166 | a relation kept by every gate is kept by a whole run over any number of blocks |
| `Circuit.SimulateEqual` | src/mpc_sha256_verifier.c:58-248 | two evaluations whose gates agree end in equal chaining values |
| `Padding.NumBlocksLeast` | src/shared.h:36-38 | the block count is the least in which message, end byte and length bytes fit without overlap |
| `Padding.PadBytesIsPad` | src/mpc_sha256_prover.c:35-50 | byte padding is the bit padding of FIPS 180-4 section 5.1.1 for every length |
| `Padding.ChunksAreParse` | src/mpc_sha256_prover.c:57-65 | the big-endian words loaded per block are the blocks of section 5.2.1 |
| `Padding.PaddedSharesOpen` | src/mpc_sha256_prover.c:38-50 | words of three separately padded shares open to the words of the padded opened message |
| `Refinement.ChIdentity` | src/mpc_arithmetic.c:70-73 | the one-AND form of Ch is the standard's Ch |
| `Refinement.MajIdentity` | src/mpc_arithmetic.c:59-62 | the one-AND form of Maj is the standard's Maj |
| `Refinement.OpeningSimulates` | src/mpc_arithmetic.c:11-95 | every prover gate on shares opens to the plain gate on opened words |
| `Refinement.PlainSchedule` | src/mpc_sha256_prover.c:69-93 | the plain schedule loop computes the schedule of section 6.2.2 |
| `Refinement.PlainRounds` | src/mpc_sha256_prover.c:108-156 | the plain rounds are the standard's rounds |
| `Refinement.PlainBlock` | src/mpc_sha256_prover.c:57-166 | one plain block is the standard's compression |
| `Refinement.PlainBlocks` | src/mpc_sha256_prover.c:57-166 | the chained loop is the standard's hash of the parsed blocks |
| `Refinement.NoCarryInHash` | src/mpc_sha256_prover.c:29-166 | the plain evaluation without carry-ins is SHA-256 of the byte string |
| `Refinement.ProverOpens` | src/mpc_sha256_prover.c:29-172 | the prover's outputs open to the hash with the opened carry-ins, for all shares, tapes and low bits |
| `Refinement.ProverRefinesSha256` | src/mpc_sha256_prover.c:57-172 | for every input length, sharing and tape the outputs open to SHA-256 of the opened input |
| `Budget.CountRound` | src/mpc_sha256_prover.c:108-156 | a round is nine gates in a fixed pattern of ADD and AND |
| `Budget.CountBlock` | src/shared.h:40-48 | a block is 728 gates in a fixed pattern |
| `Budget.CountBlocks` | src/shared.h:40-48 | n blocks are n repetitions of that pattern |
| `Budget.KindAt` | src/shared.h:40-48 | which gate indices are ADD gates, in closed form |
| `Budget.BlockAdds` | src/mpc_sha256_prover.c:69-165 | of the 728 gates of a block 600 are ADD gates |
| `Budget.ProverBudget` | src/shared.h:37-48 | a run over n blocks records exactly 728 * n words per party, at gates of the fixed kinds, 600 * n of them ADD gates |
| `Soundness.ProjectionSimulates` | src/mpc_sha256_verifier.c:58-248 | each two-party gate is the two-party part of the joint replay at the same index, checks included |
| `Soundness.VerifierBudget` | src/mpc_sha256_verifier.c:35-36 | a replay over n blocks consumes exactly 728 * n tape and view words |
| `Soundness.ForcingSimulates` | src/mpc_arithmetic.c:97-147 | a gate that passes all three checks recorded what the prover's gate computes from its low bits |
| `Soundness.PassingSimulates` | src/mpc_arithmetic.c:97-147 | words the prover's gates record pass all three checks |
| `Soundness.AllAcceptFollows` | src/mpc_sha256_verifier.c:13-265 | the three verifiers accept if and only if the joint replay does and ends in the given output shares |
| `Soundness.AcceptanceExact` | src/mpc_sha256_verifier.c:58-256 | all three accept if and only if words and output shares are the circuit's from inputs, tapes and recorded low bits |
| `Soundness.RunAccepted` | src/mpc_sha256_verifier.c:13-265 | every challenge is accepted on what a run records, whatever lowest bits its carries start from |
| `Soundness.Completeness` | src/mpc_sha256_verifier.c:13-265 | every challenge is accepted on the prover's transcript |
| `SpecialSoundness.AcceptedOpens` | src/mpc_sha256_verifier.c:58-256 | an accepted triple opens to the hash of the opened input with the recorded carry-ins |
| `SpecialSoundness.AcceptedIsSha256` | src/mpc_sha256_verifier.c:58-256 | every accepted triple whose low bits cancel at every ADD gate opens to SHA-256 of the opened input |
| `SpecialSoundness.AcceptedIsHonest` | src/mpc_sha256_verifier.c:58-256 | words and output shares of an accepted triple are exactly the prover's if and only if its low bits are clear at every ADD gate |
| `SpecialSoundness.RunRecordsLows` | src/mpc_arithmetic.c:14-50 | the low bits recorded at the ADD gates of a run are the ones its carries start from |
| `SingleChallenge.OwnWordForced` | src/mpc_arithmetic.c:129-141 | one check determines bits 1 to 31 of the first party's carry word |
| `SingleChallenge.OneView` | src/mpc_sha256_verifier.c:58-256 | one accepted challenge determines the first party's whole view, up to unchecked low bits, from the second party's view, the inputs and the tapes |
| `SingleChallenge.OneOutput` | src/mpc_sha256_verifier.c:250-256 | one accepted challenge determines both output shares |
| `LowCarries.AcceptedGates` | src/mpc_arithmetic.c:117-147 | in an accepted run exactly the ADD gates whose recorded low bits do not cancel open to a wrong sum |
| `LowCarries.AcceptedExact` | src/mpc_sha256_verifier.c:58-256 | every gate of an accepted run computes the sum or conjunction of its opened inputs if and only if the low bits cancel at every ADD gate |
| `LowCarries.RunAcceptedTo` | src/mpc_sha256_verifier.c:58-256 | for all inputs, tapes and lowest bits some accepted transcript opens to the hash with those carry-ins |
| `LowCarries.AcceptedWords` | src/mpc_sha256_verifier.c:58-256 | the words accepted transcripts on an input open to are exactly its hashes with some carry-ins |
| `LowCarries.LastCarryMatters` | src/mpc_sha256_prover.c:158-165 | one carry-in at the last gate changes the hash of every input |
| `LowCarries.AcceptedWrong` | src/mpc_sha256_verifier.c:58-256 | for every input and tape some accepted transcript does not open to its SHA-256 |
| `Privacy.PatchedAnd` | src/mpc_arithmetic.c:85-87 | the third party's tape word of an AND gate can be changed so that both opened outputs stay the same |
| `Privacy.PatchedCarries` | src/mpc_arithmetic.c:33-40 | the third party's tape word of an ADD gate can be changed so that both opened carry words stay the same |
| `Privacy.FirstSimulates` | src/mpc_arithmetic.c:11-95 | at every gate the coupled pair of runs makes on its first side the gate of the given run |
| `Privacy.SecondSimulates` | src/mpc_arithmetic.c:11-95 | at every gate it makes on its second side the gate of a run with the patched tape |
| `Privacy.TwoViewPrivacy` | src/mpc_arithmetic.c:11-95 | inputs that agree on parties e and e+1 have a third tape of full length giving word-for-word the same two views |
| `Privacy.PublishedOutputsHide` | src/mpc_halevi_micali.c:16-22 | if both inputs have the same digest, all three output shares coincide too |
| `Privacy.PatchedTapeExact` | src/mpc_arithmetic.c:24-41 | two third tapes give the same opened views if and only if they agree on every bit except bit 31 of words of ADD gates, and then give the same run |
| `Memory.LoadStoreLE` | src/shared.h:184-187 | a word survives its little-endian bytes |
| `Memory.StoreLoadLE` | src/shared.h:184-187 | four bytes survive the little-endian word |
| `Memory.NormalizeCanonical` | src/shared.h:81-94 | normalising clears every bit from L_BITS on and keeps the others |
| `Memory.LengthsTight` | src/shared.h:25-28 | bytes and words hold L_BITS bits with less than a byte or a word to spare |
| `Memory.RBytesBits` | src/shared.h:73-79 | every bit of the vector is a bit of its bytes |
| `Memory.RBytesInjective` | src/hm_zk_io.c:37-38 | the bytes that are hashed determine the normalised vector |
| `Prover.View.constructor` | src/shared.h:102-107 | a view has room for the recorded words |
| `Prover.Machine.constructor` | src/mpc_sha256_prover.c:18-33 | counters start at zero over the given tapes and view buffers |
| `Prover.Machine.NextRandom` | src/mpc_arithmetic.c:4-9 | the three tape words at the current offset, which moves by four bytes |
| `Prover.Machine.Record` | src/mpc_arithmetic.c:47-50 | one word per party is appended at countY and nothing earlier changes |
| `Prover.RippleCarries` | src/mpc_arithmetic.c:24-41 | the in-place bit loop computes the three carry words |
| `Prover.Machine.Add` | src/mpc_arithmetic.c:11-51 | output and recorded words of the ADD gate; counters stay in lockstep |
| `Prover.AddInto` | src/mpc_arithmetic.c:11-51 | the same on buffers, with the output allowed to be either input |
| `Prover.Machine.And` | src/mpc_arithmetic.c:76-95 | output and recorded words of the AND gate; counters stay in lockstep |
| `Prover.AndInto` | src/mpc_arithmetic.c:76-95 | the same on buffers, with the output allowed to be either input |
| `Prover.Machine.Ch` | src/mpc_arithmetic.c:65-74 | Ch with one AND gate |
| `Prover.Machine.Maj` | src/mpc_arithmetic.c:53-63 | Maj with one AND gate |
| `Prover.Machine.AddConstant` | src/mpc_arithmetic.h:108-113 | ADD of a public constant shared as three copies |
| `Prover.PadShare` | src/mpc_sha256_prover.c:38-50 | zeroed buffer, copy, end byte and length give the padded share |
| `Prover.ScheduleStep` | src/mpc_sha256_prover.c:70-92 | one schedule word and its three gates |
| `Prover.ExpandSchedule` | src/mpc_sha256_prover.c:69-93 | the loop fills words 16 to 63 of the schedule array |
| `Prover.RoundStep` | src/mpc_sha256_prover.c:108-156 | one round's new working variables and its nine gates |
| `Prover.CompressRounds` | src/mpc_sha256_prover.c:108-156 | the 64-round loop |
| `Prover.ChainValue` | src/mpc_sha256_prover.c:158-165 | the eight closing additions into the chaining array |
| `Prover.LoadBlock` | src/mpc_sha256_prover.c:59-65 | the first sixteen words of each share of a block |
| `Prover.RunBlock` | src/mpc_sha256_prover.c:67-165 | schedule, rounds and chaining of one block |
| `Prover.ProveBlocks` | src/mpc_sha256_prover.c:57-166 | the block loop leaves the chaining value and the log of the whole run |
| `Prover.MpcSha256Prove` | src/mpc_sha256_prover.c:14-180 | views get the input shares and exactly the recorded words of the run, in every slot; outputs are its output shares |
| `Verifier.Machine.constructor` | src/mpc_sha256_verifier.c:20-36 | the replay starts at index zero over two tapes and two views |
| `Verifier.CheckCarries` | src/mpc_arithmetic.c:129-141 | the early-exit loop decides the carry check of bits 1 to 31 |
| `Verifier.Machine.AddVerify` | src/mpc_arithmetic.c:117-147 | accepts exactly when the carry check holds and then gives both output shares |
| `Verifier.Machine.AndVerify` | src/mpc_arithmetic.c:97-115 | accepts exactly when the recorded word is the computed AND share |
| `Verifier.Machine.ChVerify` | src/mpc_arithmetic.h:137-150 | Ch with one checked AND gate |
| `Verifier.Machine.MajVerify` | src/mpc_arithmetic.c:149-162 | Maj with one checked AND gate |
| `Verifier.ScheduleStep` | src/mpc_sha256_verifier.c:71-103 | one schedule word, leaving at the first failed gate |
| `Verifier.ExpandSchedule` | src/mpc_sha256_verifier.c:70-104 | the loop fails if and only if the full replay of the schedule contains a failed check |
| `Verifier.RoundStep` | src/mpc_sha256_verifier.c:116-206 | one round, leaving at the first failed gate |
| `Verifier.CompressRounds` | src/mpc_sha256_verifier.c:116-206 | the round loop fails if and only if the full replay contains a failed check |
| `Verifier.ChainValue` | src/mpc_sha256_verifier.c:208-247 | the eight closing additions, leaving at the first failed gate |
| `Verifier.BlocksFail` | src/mpc_sha256_verifier.c:58-248 | a failed check stays failed over all later blocks, so leaving early decides the run |
| `Verifier.RunBlock` | src/mpc_sha256_verifier.c:58-248 | one block, failing exactly when its replay does |
| `Verifier.VerifyBlocks` | src/mpc_sha256_verifier.c:58-248 | the block loop, failing exactly when the replay of all blocks does |
| `Verifier.CompareOutputs` | src/mpc_sha256_verifier.c:250-256 | accepts exactly when both final chaining values are the given output shares |
| `Verifier.MpcSha256Verify` | src/mpc_sha256_verifier.c:13-265 | accepts if and only if e is a party, no check fails in the whole replay, and both outputs match |
| `Toeplitz.WindowBit` | src/toeplitz_internal.h:7-13 | bit b of the 32-bit window is diagonal bit 32*idx + shift + b |
| `Toeplitz.RowProduct` | src/universal_hash.c:5-14 | the word-window loop is the bitwise sum over diagonal and vector bits, all reads in bounds |
| `Toeplitz.ParityXor` | src/universal_hash.c:9-13 | parity is additive, so the parity of the XORed words is the sum of all products |
| `Toeplitz.RowSumPadding` | src/universal_hash.c:5-14 | zero bits of the vector past its length contribute nothing, whatever the diagonals there |
| `Toeplitz.RowSumDepends` | src/universal_hash.c:5-14 | only the diagonal bits under the row matter |
| `Toeplitz.RowSumLinear` | src/mpc_universal_hash.c:65-73 | the row product is linear in the vector, so it may be computed share by share |
| `ByteViews.WordsRoundTrip` | src/shared.h:60-72 | words survive their byte view |
| `ByteViews.BytesRoundTrip` | src/shared.h:96-100 | bytes survive the word array that stores them |
| `SharedHash.RowTimesBits` | src/mpc_universal_hash.c:11-13 | the masked word product is the bitwise product over exactly L_BITS bits |
| `SharedHash.AWordsFit` | src/shared.h:50-52 | the matrix words hold every row and its lookahead word for every MSG_BITS and L_BITS, with less than a word of row starts to spare |
| `SharedHash.RowTimesOpens` | src/mpc_universal_hash.c:65-73 | the product of the opened vector is the XOR of the products of the shares |
| `SharedHash.HashInit` | src/mpc_universal_hash.c:35-53 | b's first MSG_BITS bits are row products XOR message bits; its other bits keep their old value |
| `SharedHash.HashShare` | src/mpc_universal_hash.c:55-82 | one party's output bits, and zeros past MSG_BITS |
| `SharedHash.UniversalHashProve` | src/mpc_universal_hash.c:55-82 | output shares of all parties for arbitrary MSG_BITS and L_BITS, and zeros past MSG_BITS |
| `SharedHash.UniversalHashVerify` | src/mpc_universal_hash.c:84-129 | accepts if and only if every message bit passes both share checks and the sum check |
| `SharedHash.HashChecksExact` | src/mpc_universal_hash.c:84-129 | on each bit all three challenges pass if and only if the shares are the computed ones and A*r XOR m is b |
| `SharedHash.HashAccepted` | src/mpc_universal_hash.c:55-129 | every bit of the prover's shares passes each challenge when b hides the opened message under the opened vector |
| `SharedHash.HashProveVerify` | src/mpc_universal_hash.c:35-129 | after hash initialisation the prover's shares are accepted for every challenge, for all MSG_BITS and L_BITS |
| `SharedHash.InnerProdProve` | src/mpc_universal_hash.c:131-144 | the three output words of the inner product |
| `SharedHash.InnerProdVerify` | src/mpc_universal_hash.c:146-165 | accepts exactly when both opened words match and the sum is bit 0 of b |
| `SharedHash.InnerSharesOpen` | src/mpc_universal_hash.c:131-144 | the three output words open to row 0 times r XOR the message word |
| `SharedHash.InnerAcceptsExact` | src/mpc_universal_hash.c:146-165 | all three challenges pass if and only if the words are the computed ones and the message word is row 0 times r XOR bit 0 of b |
| `SingleChallenge.OneInnerProduct` | src/mpc_universal_hash.c:146-165 | one challenge admits one triple of words: the two computed ones and the third that opens with them to the masked bit |
| `SingleChallenge.OneHashBit` | src/mpc_universal_hash.c:112-126 | one challenge determines all three output shares of a message bit |
| `HaleviMicali.ShareSecrets` | src/mpc_core_funcs.h:14-39 | for all randomness the shares open to r and to the message word |
| `HaleviMicali.KeyStream` | src/prg.c:15-37 | byte i of the output is byte i of the stream of the key, across all chunks |
| `HaleviMicali.EncryptZeros` | src/prg.c:25-34 | a chunk continues the stream where the last one ended and touches nothing else |
| `HaleviMicali.GateWord` | src/mpc_arithmetic.c:4-9 | every gate has its own four bytes of the key stream |
| `HaleviMicali.ProveRound` | src/mpc_halevi_micali.c:11-31 | the views in memory and the round commitment are the honest ones |
| `HaleviMicali.VerifyRound` | src/mpc_halevi_micali.c:53-77 | accepts if and only if both view hashes, the circuit replay and the inner product do |
| `RoundTheorems.BytesOpen` | src/shared.h:77-79 | the byte strings of the shares open to the bytes of the opened vector |
| `RoundTheorems.DigestWordsExact` | src/mpc_core_funcs.h:55-60 | a digest and its eight words determine each other |
| `RoundTheorems.ReconstructedOpen` | src/mpc_core_funcs.h:62-73 | the reconstructed output shares open to the digest |
| `RoundTheorems.ReconstructForced` | src/mpc_core_funcs.h:62-73 | the third output share is the only one that opens to the digest |
| `RoundTheorems.RoundExact` | src/mpc_halevi_micali.c:53-77 | all three challenges accept one transcript if and only if hashes, words, output shares and message shares are the forced ones |
| `RoundTheorems.RoundSoundness` | src/mpc_halevi_micali.c:53-77 | then the message is the bit hidden under the opened bytes, and the digest is their hash with the recorded carry-ins: their SHA-256 whenever the low bits cancel |
| `RoundTheorems.NeighboursAgree` | src/mpc_halevi_micali.c:35-51 | neighbouring accepted openings share key, view and nonce of their common party unless its hash collides |
| `RoundTheorems.OpeningsJoin` | src/mpc_halevi_micali.c:35-77 | three accepted openings of one commitment join to one transcript unless two view hashes collide |
| `RoundTheorems.OpeningsExtract` | src/mpc_halevi_micali.c:35-77 | the same conclusions as for one transcript, from the three openings |
| `SingleChallenge.OneChallengeHashes` | src/mpc_halevi_micali.c:35-51 | an accepted commitment holds the hashes of both opened keys, views and nonces |
| `SingleChallenge.OneChallengeCommit` | src/mpc_halevi_micali.c:53-77 | for an accepted opening the other accepted commitments are exactly those that differ only in the hash of the closed view |
| `SingleChallenge.OneChallengeDigest` | src/mpc_halevi_micali.c:53-77 | challenges 1 and 2 admit one digest; challenge 0 admits every digest |
| `RoundTheorems.RunAcceptedByAll` | src/mpc_halevi_micali.c:11-77 | for all shares, keys, nonces and lowest bits the transcript of that run is accepted for the digest it computes |
| `RoundTheorems.RoundCompleteness` | src/mpc_halevi_micali.c:11-31 | for all shares of a valid opening, keys and nonces every challenge is accepted |
| `RoundCarries.WrongSumDiffers` | src/mpc_halevi_micali.c:53-77 | the digest of the run with one low bit set at its last gate is never the SHA-256 of the input |
| `RoundCarries.RoundDigests` | src/mpc_halevi_micali.c:53-77 | a digest is accepted for all challenges on given shares and keys if and only if the message is the hidden bit and the digest is the hash of the opened bytes with some carry-ins |
| `RoundCarries.RoundWrong` | src/mpc_halevi_micali.c:53-77 | for every vector, keys and matching message some digest that is not its SHA-256 is accepted for all challenges |
| `RoundPrivacy.ReshareOpens` | src/mpc_core_funcs.h:14-28 | any vector has shares that keep two given ones |
| `RoundPrivacy.SharesAreDrawn` | src/mpc_core_funcs.h:14-39 | secret sharing gives canonical vector shares and one-bit message shares |
| `RoundPrivacy.VectorsReached` | src/mpc_core_funcs.h:14-28 | all canonical shares of a vector come from some random vectors |
| `RoundPrivacy.RoundHides` | src/mpc_halevi_micali.c:11-31 | any other opening of the same digest and bit has shares and a tape giving the same opened views, output shares and inner product words; canonical ones are shares that secret sharing can draw |
| `RoundPrivacy.EveryTape` | src/prg.c:15-37 | every word tape is the tape of some byte string |
| `PlainHm.LayoutFits` | src/hm_plain.c:41-53 | the opening has four times the bits of the written digest, twice the message and four; for every length all sizes are tight and each lookahead word lies inside the matrix |
| `PlainHm.CommitGetSizes` | src/hm_plain.c:62-77 | the three sizes in closed form for lengths 1 to 10000000, zeros and failure otherwise |
| `PlainHm.LastByteDecides` | src/hm_plain.c:57-60 | the mask test on the last byte decides that all padding bits are zero |
| `PlainHm.MaskedMessageBits` | src/universal_hash.c:20-29 | the masked message is determined by its n bits and zero padding |
| `PlainHm.OpensExact` | src/hm_plain.c:203-237 | a commitment opens if and only if the opening is canonical and recommitting gives it back |
| `PlainHm.OpensOneMessage` | src/hm_plain.c:203-237 | two messages open the same commitment under one matrix and opening exactly when all n bits agree |
| `PlainHm.OpensSomeMessage` | src/hm_plain.c:203-237 | a commitment opens to some message if and only if sizes, padding and digest are right |
| `PlainHm.EntryExact` | src/universal_hash.c:5-14 | entry (i, j) is what row i makes of the opening whose only bit is j |
| `PlainHm.EntriesToeplitz` | src/universal_hash.c:20-29 | entries are constant along diagonals |
| `PlainHm.DiagonalEnds` | src/hm_plain.c:46-48 | the first and last exported bits are the first column of the last row and the last column of the first |
| `PlainContext.HmContext.constructor` | src/hm_plain.c:89-116 | a fresh context satisfies the invariant |
| `PlainContext.ContextCreate` | src/hm_plain.c:118-135 | null exactly for lengths without layout; the matrix is the random bytes with the last one masked |
| `PlainContext.ContextFromMatrix` | src/hm_plain.c:137-160 | null exactly for bad lengths, sizes or padding; the matrix is the imported one |
| `PlainContext.ContextExport` | src/hm_plain.c:162-171 | copies the matrix bytes exactly when they fit and nothing past them |
| `PlainContext.ExportImport` | src/hm_plain.c:137-171 | importing an exported matrix restores it word for word |
| `PlainContext.ComputeB` | src/universal_hash.c:20-29 | the loop writes the masked message and nothing past it |
| `PlainContext.Commit` | src/hm_plain.c:173-201 | succeeds exactly when both buffers fit, writes commitment and opening, keeps the invariant |
| `PlainContext.VerifyMessage` | src/universal_hash.c:31-44 | the early-exit loop decides equality of all n bits |
| `PlainContext.Verify` | src/hm_plain.c:203-237 | accepts if and only if sizes, padding, digest and message bits are right; keeps the invariant |
| `PlainContext.CommitmentOpens` | src/hm_plain.c:173-237 | every commitment opens to its message |
| `PlainContext.CommitmentDepends` | src/hm_plain.c:46-48 | only the exported diagonal bits influence a commitment |
| `PlainContext.RunCalls` | src/hm_plain.c:173-237 | over any sequence of calls, rejected ones included, the matrix and the invariant stay and each outcome depends on its own inputs only |
| `PlainContext.CommitElsewhere` | src/hm_plain.c:137-237 | a commitment verifies on a context imported from the exported matrix |
| `RandomOracle.TritsExact` | src/random_oracle.c:56-74 | value number i is 2 * b1 + b2 of kept pair number i |
| `RandomOracle.KeptExact` | src/random_oracle.c:56-74 | the kept pairs are exactly those other than (1,1), in stream order |
| `RandomOracle.TritsExtend` | src/random_oracle.c:46-75 | reading more pairs only appends values |
| `RandomOracle.FirstTrits` | src/random_oracle.c:46-75 | the first s values do not depend on how far the stream is read |
| `RandomOracle.PairInDigest` | src/random_oracle.c:47-57 | the pair at an even tracker below 256 is inside the digest and is the next pair of the re-hash chain |
| `RandomOracle.H3` | src/random_oracle.c:35-76 | every run of the loop that ends returns the first s values of the stream, with (1,1) pairs dropped |
| `ZkIo.CommitRoundTrip` | src/shared.h:116-122 | a round commitment survives its bytes |
| `ZkIo.ViewRoundTrip` | src/shared.h:103-107 | a view survives its bytes |
| `ZkIo.RecordRoundTrip` | src/hm_zk_io.c:44-120 | reading a record gives exactly the commitment, keys, nonces and views written |
| `ZkIo.RecordLayout` | src/hm_zk_io.c:53-71 | the place of each part of a record |
| `ZkIo.ViewLayout` | src/shared.h:103-107 | the place of each part of a view |
| `ZkIo.FillRecord` | src/hm_zk_io.c:53-71 | the buffer holds the record, and the index its length |
| `ZkIo.ProofFile.PWrite` | src/hm_zk_io.c:73-77 | the bytes written are at their offset, those outside are kept, a gap is zero, and the count is returned |
| `ZkIo.ProofFile.PRead` | src/hm_zk_io.c:86-93 | the bytes from the offset, all n exactly when the file holds them |
| `ZkIo.WrittenIsOverwrite` | src/hm_zk_io.c:73-77 | that description determines the file |
| `ZkIo.WriteRound` | src/hm_zk_io.c:44-78 | succeeds exactly when the buffer is large enough and the write is complete, and then the record is at its offset |
| `ZkIo.ReadRound` | src/hm_zk_io.c:80-120 | fails exactly on a small buffer, a short file or a missing view, and otherwise gives the record at its offset, views in the view objects |
| `ZkIo.LoadView` | src/hm_zk_io.c:115-118 | the view object holds exactly the view read |
| `ZkIo.OverwriteHolds` | src/hm_zk_io.c:73-77 | a record is in the file after it is written and survives the writing of other rounds |
| `ZkIo.AnyOrderSameFile` | src/hm_zk.c:90-137 | whatever the order of the rounds the file is the concatenation of the records |
| `ZkIo.CommitmentRoundTrip` | src/hm_zk_io.c:6-42 | key, masked bit and digest survive the commitment string |
| `ZkIo.CommitmentLayout` | src/hm_zk_io.c:18-42 | 16 bytes of key, one of masked bits, 32 of digest, each at its place |
| `ZkIo.ReadLayout` | src/hm_zk_io.c:6-16 | read from the same places |
| `ZkProtocol.ChallengeOf` | src/mpc_core_funcs.h:41-43 | a party, the first value of the challenge chain however far it is read |
| `ZkProtocol.StartBinds` | src/random_oracle.c:35-40 | rounds whose challenge chains start alike agree on matrix, masked bit, digest and commitment unless the hash collides |
| `ZkProtocol.Challenge` | src/hm_zk.c:116-121 | prover and verifier draw the same challenge from matrix, b, digest and round commitment |
| `ZkProtocol.ExpandMatrix` | src/mpc_universal_hash.c:15-33 | bit by bit the key stream, and a zero last word |
| `ZkProtocol.ExpandKey` | src/mpc_universal_hash.c:15-33 | the chunk loop gives that matrix |
| `ZkProtocol.InitHash` | src/mpc_universal_hash.c:35-53 | matrix and b of the commitment, over whatever byte b held before |
| `ZkProtocol.RunRoundOk` | src/hm_zk.c:104-128 | commitment and opening of a round are accepted for their own challenge |
| `ZkProtocol.RoundRecordOk` | src/hm_zk.c:104-128 | the record of a round, read back, is accepted |
| `ZkProtocol.CommitRound` | src/hm_zk.c:99-133 | the loop body writes the record of the round, and fails exactly when the write is short |
| `ZkProtocol.CommittedFileValid` | src/hm_zk.c:90-137 | a file with all records is a valid proof for the commitment string |
| `ZkProtocol.AnyScheduleValid` | src/hm_zk.c:90-137 | every order of the rounds gives the same, valid, file |
| `ZkProtocol.BitCommit` | src/hm_zk.c:34-157 | success exactly when every write is complete; then commitment, opening and file are determined by the randomness alone and valid |
| `ZkProtocol.CheckRound` | src/hm_zk.c:206-224 | the loop body accepts exactly the rounds that are right |
| `ZkProtocol.BitVerify` | src/hm_zk.c:159-239 | for every order of the rounds it accepts if and only if the commitment has its length and all 136 rounds are right |
| `ZkProtocol.ValidEnds` | src/hm_zk.c:217-219 | on a valid proof every challenge comes out of its chain |
| `ZkProtocol.CommitThenVerify` | src/hm_zk.c:34-239 | what is committed under any schedule is accepted under any schedule |
| `ZkProtocol.ProtocolSizes` | src/shared.h:20-52 | the sizes for one message bit: an opening of 1030 bits in 129 bytes, tapes of 8736 bytes, 34 matrix words |
| `RoundCount.RoundsLeast` | src/shared.h:16-18 | 136 is the least number of rounds with 2^79 * 2^r <= 3^r |
| `RoundCount.OneRoundShort` | src/shared.h:16-18 | 2^80 * 2^r <= 3^r takes 137 rounds |
| `ZkProtocol.ValidWrongDigest` | src/hm_zk.c:159-239 | for every draw there is a commitment string whose digest is not the SHA-256 of the shared vector, with a valid proof file whenever all its challenges come out |

## Left out

- Prover.AddInto: three-word buffers on the stack are values in local variables everywhere else; writing an output over an input is shown here and in `AndInto` only. Views, schedules, chaining values, padded shares and contexts are arrays.
- Linear gates (XOR, rotation, shift, AND with a constant) are functions on shares, without output buffers.
- SharedHash.HashShare: one party's column at a time; the source advances the three parties together.
- HaleviMicali.ProveRound: the word of the message share is the only one, as `MSG_BITS` is 1; `UniversalHashProve` and `UniversalHashVerify`, which the round does not call, are modelled for every `MSG_BITS`.
- RandomOracle.H3: a chain that never holds enough values keeps the source looping; nothing is said of such a run, here or in `Challenge`, `CommitRound`, `CheckRound`, `BitCommit` and `BitVerify`, which require that the challenges they sample come out. No bound on the loop is assumed.
- RoundTheorems.OpeningsExtract: collision resistance of the view hash is the hypothesis that the hashes shared by two openings do not collide.
- RoundPrivacy.RoundHides: the combinatorial core of zero knowledge; that tapes come from a pseudo-random generator and that the unopened view hash hides are not modelled.
- ZkProtocol.BitCommit: parallel rounds are an arbitrary order of whole rounds with the sticky error flag between them; interleaving inside a round touches only thread-private state and the file. One set of views is reused by all rounds. A short write is an input (`rooms`); what a failed commit leaves in the file is not described.
- ZkIo.ReadRound: what a failed read leaves in the output structures is not described.
- Null pointers, unreadable files and failing allocations, which `hm_bit_commit` and `hm_bit_verify` reject.
- Failing allocations and null arguments of the plain commitment functions.
- AES-CTR, the view hash and the challenge hash are uninterpreted functions; random bytes are arbitrary inputs. Plain SHA-256 of the opening is the function of FIPS 180-4.
- The soundness error, statistical hiding and other probabilities.
- File handles, `malloc`, cleansing, logging, `src/thread_state.c` and `src/hm_buffer.c`.
- Big-endian hosts: words in memory are little-endian, as `src/hm_platform.h` requires.
- `mpc_NEGATE`, `mpc_XORK`, `store_u32_be` and `rvec_from_bytes`, which no modelled function calls.
