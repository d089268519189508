/** Challenge sampling: trits from a chain of digests by rejection. */
module RandomOracle {
  import opened Bits
  import Sha256

  type Digest = Sha256.Digest

  const PAIRS_PER_DIGEST: nat := 128

  /** The digest after j re-hashes. */
  function Chain(rehash: Digest -> Digest, d: Digest, j: nat): Digest {
    if j == 0 then d else rehash(Chain(rehash, d, j - 1))
  }

  /** Bit i of a digest, least significant bit of each byte first. */
  function DigestBit(d: Digest, i: nat): bool
    requires i < 256
  {
    d[i / 8][i % 8]
  }

  /** Pair number k of the endless bit stream of the chain. */
  function BitPair(rehash: Digest -> Digest, d: Digest, k: nat): (bool, bool) {
    var h := Chain(rehash, d, k / PAIRS_PER_DIGEST);
    var o := 2 * (k % PAIRS_PER_DIGEST);
    (DigestBit(h, o), DigestBit(h, o + 1))
  }

  /** 00, 01 and 10 give 0, 1 and 2; 11 gives nothing. */
  function Trit(p: (bool, bool)): seq<nat> {
    if p.0 && p.1 then [] else if p.0 then [2] else if p.1 then [1] else [0]
  }

  /** The trits of the first n pairs. */
  function Trits(rehash: Digest -> Digest, d: Digest, n: nat): (t: seq<nat>)
    ensures |t| <= n && forall i :: 0 <= i < |t| ==> t[i] < 3
  {
    if n == 0 then [] else Trits(rehash, d, n - 1) + Trit(BitPair(rehash, d, n - 1))
  }

  /** Which of the first n pairs are kept. */
  function Kept(rehash: Digest -> Digest, d: Digest, n: nat): seq<nat> {
    if n == 0 then []
    else Kept(rehash, d, n - 1) + (if BitPair(rehash, d, n - 1) == (true, true) then [] else [n - 1])
  }

  function PairValue(p: (bool, bool)): nat { 2 * BitVal(p.0) + BitVal(p.1) }

  /** Trit number i is the value 2 * b1 + b2 of kept pair number i. */
  lemma {:induction false} TritsExact(rehash: Digest -> Digest, d: Digest, n: nat)
    ensures |Trits(rehash, d, n)| == |Kept(rehash, d, n)|
    ensures forall i :: 0 <= i < |Kept(rehash, d, n)| ==>
      Trits(rehash, d, n)[i] == PairValue(BitPair(rehash, d, Kept(rehash, d, n)[i]))
  {
    hide BitPair;
    if n > 0 { TritsExact(rehash, d, n - 1); }
  }

  /** The kept pairs are exactly those other than (1,1), in the order of the stream. */
  lemma {:induction false} KeptExact(rehash: Digest -> Digest, d: Digest, n: nat)
    ensures forall k :: k in Kept(rehash, d, n) <==> 0 <= k < n && BitPair(rehash, d, k) != (true, true)
    ensures forall i, j :: 0 <= i < j < |Kept(rehash, d, n)| ==> Kept(rehash, d, n)[i] < Kept(rehash, d, n)[j]
  {
    hide BitPair;
    if n > 0 {
      KeptExact(rehash, d, n - 1);
      var kept := Kept(rehash, d, n - 1);
      assert forall i :: 0 <= i < |kept| ==> kept[i] in kept;
    }
  }

  /** More pairs only append trits. */
  lemma {:induction false} TritsExtend(rehash: Digest -> Digest, d: Digest, m: nat, n: nat)
    requires m <= n
    ensures Trits(rehash, d, m) <= Trits(rehash, d, n)
  {
    hide BitPair, Trit;
    if m < n { TritsExtend(rehash, d, m, n - 1); }
  }

  /** The first s trits do not depend on how many pairs are read. */
  lemma FirstTrits(rehash: Digest -> Digest, d: Digest, s: nat, m: nat, n: nat)
    requires s <= |Trits(rehash, d, m)| && s <= |Trits(rehash, d, n)|
    ensures Trits(rehash, d, m)[..s] == Trits(rehash, d, n)[..s]
  {
    hide Trits;
    if m <= n { TritsExtend(rehash, d, m, n); } else { TritsExtend(rehash, d, n, m); }
  }

  lemma PairInDigest(rehash: Digest -> Digest, d: Digest, round: nat, tracker: nat)
    requires tracker < 256 && tracker % 2 == 0
    ensures var h := Chain(rehash, d, round);
      BitPair(rehash, d, 128 * round + tracker / 2)
      == (h[tracker / 8][tracker % 8], h[(tracker + 1) / 8][(tracker + 1) % 8])
  {
    hide Chain;
    assert (128 * round + tracker / 2) / PAIRS_PER_DIGEST == round;
    assert 2 * ((128 * round + tracker / 2) % PAIRS_PER_DIGEST) == tracker;
  }

  /** The chain holds s trits somewhere: the source's loop ends. */
  ghost predicate Yields(rehash: Digest -> Digest, d: Digest, s: nat) {
    exists n :: s <= |Trits(rehash, d, n)|
  }

  /** The first s trits of the chain, however far it is read. */
  ghost function First(rehash: Digest -> Digest, d: Digest, s: nat): (t: seq<nat>)
    requires Yields(rehash, d, s)
    ensures |t| == s && forall i :: 0 <= i < s ==> t[i] < 3
    ensures forall n :: s <= |Trits(rehash, d, n)| ==> t == Trits(rehash, d, n)[..s]
  {
    var m :| s <= |Trits(rehash, d, m)|;
    assert forall n :: s <= |Trits(rehash, d, n)| ==> Trits(rehash, d, m)[..s] == Trits(rehash, d, n)[..s] by {
      forall n | s <= |Trits(rehash, d, n)| ensures Trits(rehash, d, m)[..s] == Trits(rehash, d, n)[..s] {
        FirstTrits(rehash, d, s, m, n);
      }
    }
    Trits(rehash, d, m)[..s]
  }

  /** H3 after hashing its inputs to d, for every run of its loop that ends. */
  method H3(rehash: Digest -> Digest, d: Digest, s: nat) returns (es: seq<nat>)
    requires Yields(rehash, d, s)
    ensures es == First(rehash, d, s)
  {
    hide BitPair, Trits, Chain;
    ghost var bound :| s <= |Trits(rehash, d, bound)|;
    var hash := d;
    var bitTracker := 0;
    ghost var round := 0;
    ghost var pairs := 0;
    es := [];
    TritsStart(rehash, d);
    while |es| < s
      invariant 0 <= bitTracker <= 256 && bitTracker % 2 == 0
      invariant hash == Chain(rehash, d, round)
      invariant pairs == 128 * round + bitTracker / 2
      invariant |es| <= s && es == Trits(rehash, d, pairs)
      decreases bound - pairs
    {
      StillShort(rehash, d, s, pairs, bound);
      if bitTracker >= 256 {
        ChainStep(rehash, d, round);
        hash := rehash(hash);
        bitTracker := 0;
        round := round + 1;
      }
      PairInDigest(rehash, d, round, bitTracker);
      TritsStep(rehash, d, pairs);
      var b1 := hash[bitTracker / 8][bitTracker % 8];
      var b2 := hash[(bitTracker + 1) / 8][(bitTracker + 1) % 8];
      if !b1 {
        if !b2 {
          es := es + [0];
        } else {
          es := es + [1];
        }
      } else if !b2 {
        es := es + [2];
      }
      bitTracker := bitTracker + 2;
      pairs := pairs + 1;
    }
    assert Trits(rehash, d, pairs)[..s] == es;
  }

  lemma TritsStart(rehash: Digest -> Digest, d: Digest)
    ensures Trits(rehash, d, 0) == [] && Chain(rehash, d, 0) == d
  {}

  lemma TritsStep(rehash: Digest -> Digest, d: Digest, n: nat)
    ensures Trits(rehash, d, n + 1) == Trits(rehash, d, n) + Trit(BitPair(rehash, d, n))
  {}

  lemma ChainStep(rehash: Digest -> Digest, d: Digest, j: nat)
    ensures Chain(rehash, d, j + 1) == rehash(Chain(rehash, d, j))
  {}

  lemma StillShort(rehash: Digest -> Digest, d: Digest, s: nat, pairs: nat, bound: nat)
    requires |Trits(rehash, d, pairs)| < s <= |Trits(rehash, d, bound)|
    ensures pairs < bound
  {
    hide Trits;
    if bound <= pairs { TritsExtend(rehash, d, bound, pairs); }
  }
}
