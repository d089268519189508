/** Four evaluations of the SHA-256 circuit: on plain words, by the prover on three shares, by a
    verifier that opens two neighbouring parties, and by all three verifiers at once. */
module Evaluations {
  import opened Bits
  import opened Shares
  import opened Circuit

  // ----- plain words, with a carry-in bit per gate (all zero for SHA-256)

  function BitAt(s: seq<bool>, i: nat): bool { i < |s| && s[i] }

  function PlainAdd(carryIns: seq<bool>, n: nat, x: Word, y: Word): (nat, Word) {
    (n + 1, AddCarry(x, y, BitAt(carryIns, n)))
  }

  function PlainAnd(n: nat, x: Word, y: Word): (nat, Word) { (n + 1, And(x, y)) }

  function PlainGates(carryIns: seq<bool>): Gates<nat, Word> {
    Gates((n: nat, x: Word, y: Word) => PlainAdd(carryIns, n, x, y),
          (n: nat, x: Word, y: Word) => PlainAnd(n, x, y),
          (x: Word, y: Word) => Xor(x, y),
          (x: Word, n: nat) => Rotr(x, n),
          (x: Word, n: nat) => Shr(x, n),
          (c: Word) => c)
  }

  // ----- the prover

  /** Random tapes, or recorded views, as one word per gate for each party. */
  type Tapes = Triple<seq<Word>>

  function TapeWord(t: seq<Word>, i: nat): Word { if i < |t| then t[i] else ZERO }

  function TapeWords(t: Tapes, i: nat): Triple<Word> {
    Triple(TapeWord(t.p0, i), TapeWord(t.p1, i), TapeWord(t.p2, i))
  }

  /** The three lowest carry bits, gate by gate. */
  type Lows = seq<Triple<bool>>

  function LowAt(lows: Lows, i: nat): Triple<bool> {
    if i < |lows| then lows[i] else NO_CARRY
  }

  /** The recorded view words so far, gate by gate, and which gates were ADD gates. */
  datatype Recorded = Recorded(ys: seq<Triple<Word>>, adds: seq<bool>)

  const NOTHING := Recorded([], [])

  /** One party's recorded words. */
  function Column(ys: seq<Triple<Word>>, e: nat): (c: seq<Word>)
    ensures |c| == |ys| && forall i :: 0 <= i < |ys| ==> c[i] == ys[i].At(e)
  {
    seq(|ys|, i requires 0 <= i < |ys| => ys[i].At(e))
  }

  function Columns(ys: seq<Triple<Word>>): Tapes { Triple(Column(ys, 0), Column(ys, 1), Column(ys, 2)) }

  function ProveAdd(tapes: Tapes, lows: Lows, s: Recorded,
                    x: Triple<Word>, y: Triple<Word>): (Recorded, Triple<Word>) {
    var c := AddCarries(x, y, TapeWords(tapes, |s.ys|), LowAt(lows, |s.ys|));
    (Recorded(s.ys + [c], s.adds + [true]), SumShares(x, y, c))
  }

  function ProveAnd(tapes: Tapes, s: Recorded, x: Triple<Word>, y: Triple<Word>): (Recorded, Triple<Word>) {
    var z := AndShares(x, y, TapeWords(tapes, |s.ys|));
    (Recorded(s.ys + [z], s.adds + [false]), z)
  }

  function RotrShares(x: Triple<Word>, n: nat): Triple<Word> { Triple(Rotr(x.p0, n), Rotr(x.p1, n), Rotr(x.p2, n)) }

  function ShrShares(x: Triple<Word>, n: nat): Triple<Word> { Triple(Shr(x.p0, n), Shr(x.p1, n), Shr(x.p2, n)) }

  /** The prover's gates. lows holds the lowest carry bits of each ADD gate; the source starts
      every carry at zero, which is the empty sequence. */
  function ProveGates(tapes: Tapes, lows: Lows): Gates<Recorded, Triple<Word>> {
    Gates((s: Recorded, x: Triple<Word>, y: Triple<Word>) => ProveAdd(tapes, lows, s, x, y),
          (s: Recorded, x: Triple<Word>, y: Triple<Word>) => ProveAnd(tapes, s, x, y),
          (x: Triple<Word>, y: Triple<Word>) => XorShares(x, y),
          (x: Triple<Word>, n: nat) => RotrShares(x, n),
          (x: Triple<Word>, n: nat) => ShrShares(x, n),
          (c: Word) => Triple(c, c, c))
  }

  // ----- a verifier of two parties

  /** How many gates were replayed and whether every check so far passed. */
  datatype Checked = Checked(count: nat, ok: bool)

  const UNCHECKED := Checked(0, true)

  function ViewPair(ys: Pair<seq<Word>>, i: nat): Pair<Word> { Pair(TapeWord(ys.own, i), TapeWord(ys.next, i)) }

  function VerifyAdd(tapes: Pair<seq<Word>>, ys: Pair<seq<Word>>, s: Checked, x: Pair<Word>,
                     y: Pair<Word>): (Checked, Pair<Word>) {
    var c := ViewPair(ys, s.count);
    (Checked(s.count + 1, s.ok && AddCheck(x, y, ViewPair(tapes, s.count), c)), XorPair(XorPair(x, y), c))
  }

  function VerifyAnd(tapes: Pair<seq<Word>>, ys: Pair<seq<Word>>, s: Checked, x: Pair<Word>,
                     y: Pair<Word>): (Checked, Pair<Word>) {
    var z := ViewPair(ys, s.count);
    (Checked(s.count + 1, s.ok && z.own == AndShare(x, y, ViewPair(tapes, s.count))), z)
  }

  function VerifyGates(tapes: Pair<seq<Word>>, ys: Pair<seq<Word>>): Gates<Checked, Pair<Word>> {
    Gates((s: Checked, x: Pair<Word>, y: Pair<Word>) => VerifyAdd(tapes, ys, s, x, y),
          (s: Checked, x: Pair<Word>, y: Pair<Word>) => VerifyAnd(tapes, ys, s, x, y),
          (x: Pair<Word>, y: Pair<Word>) => XorPair(x, y),
          (x: Pair<Word>, n: nat) => Pair(Rotr(x.own, n), Rotr(x.next, n)),
          (x: Pair<Word>, n: nat) => Pair(Shr(x.own, n), Shr(x.next, n)),
          (c: Word) => Pair(c, c))
  }

  // ----- the three verifiers together, on one triple of recorded words

  /** How many gates were replayed and which of the three verifiers are still content. */
  datatype Followed = Followed(count: nat, ok: Triple<bool>) {
    predicate AllOk() { ok.p0 && ok.p1 && ok.p2 }
  }

  const UNFOLLOWED := Followed(0, Triple(true, true, true))

  function FollowAdd(tapes: Tapes, ys: Tapes, s: Followed,
                     x: Triple<Word>, y: Triple<Word>): (Followed, Triple<Word>) {
    var c := TapeWords(ys, s.count);
    var r := TapeWords(tapes, s.count);
    (Followed(s.count + 1, Triple(s.ok.p0 && AddCheck(Opened(x, 0), Opened(y, 0), Opened(r, 0), Opened(c, 0)),
                                  s.ok.p1 && AddCheck(Opened(x, 1), Opened(y, 1), Opened(r, 1), Opened(c, 1)),
                                  s.ok.p2 && AddCheck(Opened(x, 2), Opened(y, 2), Opened(r, 2), Opened(c, 2)))),
     SumShares(x, y, c))
  }

  function FollowAnd(tapes: Tapes, ys: Tapes, s: Followed,
                     x: Triple<Word>, y: Triple<Word>): (Followed, Triple<Word>) {
    var z := TapeWords(ys, s.count);
    var t := AndShares(x, y, TapeWords(tapes, s.count));
    (Followed(s.count + 1, Triple(s.ok.p0 && z.p0 == t.p0, s.ok.p1 && z.p1 == t.p1, s.ok.p2 && z.p2 == t.p2)), z)
  }

  function FollowGates(tapes: Tapes, ys: Tapes): Gates<Followed, Triple<Word>> {
    Gates((s: Followed, x: Triple<Word>, y: Triple<Word>) => FollowAdd(tapes, ys, s, x, y),
          (s: Followed, x: Triple<Word>, y: Triple<Word>) => FollowAnd(tapes, ys, s, x, y),
          (x: Triple<Word>, y: Triple<Word>) => XorShares(x, y),
          (x: Triple<Word>, n: nat) => RotrShares(x, n),
          (x: Triple<Word>, n: nat) => ShrShares(x, n),
          (c: Word) => Triple(c, c, c))
  }
}
