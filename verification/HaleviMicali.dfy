/** One round of the proof: sharing the secrets, the prover's transcript and commitment, opening two
    views, and the verifier's decision. */
module HaleviMicali {
  import opened Bits
  import opened Shares
  import opened Evaluations
  import opened Padding
  import opened Memory
  import opened Refinement
  import opened Budget
  import opened Soundness
  import opened Toeplitz
  import opened ByteViews
  import opened SharedHash
  import opened Prover
  import Verifier
  import Sha256

  type Digest = Sha256.Digest

  /** The contents of a view. */
  datatype ViewVal = ViewVal(x: RVec, msg: Bytes, y: seq<Word>)

  /** Primitives the proofs know nothing about: the key stream of the tape generator and the hash
      that commits to a key, a view and a nonce. */
  datatype Primitives = Primitives(stream: Bytes -> nat -> Byte, viewHash: (Bytes, ViewVal, Bytes) -> Digest)

  /** The matrix and the masked bit of the Halevi-Micali commitment. */
  datatype HashKey = HashKey(A: seq<Word>, b: Bytes)

  /** The round commitment: two output shares, the shares of the zero commitment, three view hashes. */
  datatype Commit = Commit(yp0: seq<Word>, yp1: seq<Word>, y2p: Triple<Word>, h: Triple<Digest>)

  /** The opening of two neighbouring parties. */
  datatype Open = Open(keys: Pair<Bytes>, rs: Pair<Bytes>, views: Pair<ViewVal>)

  function ViewWords(lBits: nat): nat { GATES_PER_BLOCK * NumBlocks(LBytes(lBits)) }

  function StreamByte(p: Primitives, key: Bytes, i: nat): (b: Byte)
    ensures b == p.stream(key)(i)
  {
    p.stream(key)(i)
  }

  /** The first bytes of a key's stream. */
  function StreamBytes(p: Primitives, key: Bytes, len: nat): (t: Bytes)
    ensures |t| == len && forall i :: 0 <= i < len ==> t[i] == p.stream(key)(i)
  {
    seq(len, i requires 0 <= i < len => StreamByte(p, key, i))
  }

  /** The tape of a key. */
  function Tape(p: Primitives, key: Bytes, lBits: nat): (t: Bytes)
    ensures |t| == 4 * ViewWords(lBits)
  {
    StreamBytes(p, key, 4 * ViewWords(lBits))
  }

  /** Every gate has its own four bytes of the stream. */
  lemma GateWord(p: Primitives, key: Bytes, lBits: nat, g: nat, k: nat)
    requires g < ViewWords(lBits) && k < 32
    ensures g < |TapeOf(Tape(p, key, lBits))|
    ensures TapeOf(Tape(p, key, lBits))[g][k] == p.stream(key)(4 * g + k / 8)[k % 8]
  {
    hide ViewWords;
    var t := Tape(p, key, lBits);
    var q := t[4 * g..4 * g + 4];
    assert LoadLE(q)[k] == q[k / 8][k % 8];
  }

  const CHUNK: nat := 4096

  /** getAllRandomness: the stream, one chunk of encrypted zeros after the other. */
  method KeyStream(p: Primitives, key: Bytes, len: nat) returns (t: Bytes)
    ensures |t| == len && forall i :: 0 <= i < len ==> t[i] == p.stream(key)(i)
    ensures t == StreamBytes(p, key, len)
  {
    var out := new Byte[len](_ => Zeros(8));
    var produced := 0;
    while produced < len
      invariant 0 <= produced <= len
      invariant forall i :: 0 <= i < produced ==> out[i] == p.stream(key)(i)
    {
      var chunk := if len - produced > CHUNK then CHUNK else len - produced;
      EncryptZeros(p, key, out, produced, chunk);
      produced := produced + chunk;
    }
    t := out[..];
  }

  /** The next chunk of the stream, at its place in the output. */
  method EncryptZeros(p: Primitives, key: Bytes, out: array<Byte>, from: nat, chunk: nat)
    requires from + chunk <= out.Length
    modifies out
    ensures forall i :: 0 <= i < out.Length ==>
      out[i] == if from <= i < from + chunk then p.stream(key)(i) else old(out[i])
  {
    var i := 0;
    while i < chunk
      invariant 0 <= i <= chunk
      invariant forall j :: 0 <= j < out.Length ==>
        out[j] == if from <= j < from + i then p.stream(key)(j) else old(out[j])
    {
      out[from + i] := p.stream(key)(from + i);
      i := i + 1;
    }
  }

  /** load_digest_words. */
  function DigestWords(d: Digest): (w: seq<Word>)
    ensures |w| == 8
  {
    seq(8, i requires 0 <= i < 8 => Sha256.LoadBE(d[4 * i..4 * i + 4]))
  }

  /** reconstruct_sha256_output_shares: the third share is what makes the shares open to the digest. */
  function ReconstructShares(a: Commit, d: Digest): (o: Triple<seq<Word>>)
    requires |a.yp0| == |a.yp1| == 8
    ensures o.p0 == a.yp0 && o.p1 == a.yp1 && |o.p2| == 8
  {
    Triple(a.yp0, a.yp1, XorWords(XorWords(DigestWords(d), a.yp0), a.yp1))
  }

  // ----- sharing the secrets

  lemma NormalizeXor(a: RVec, b: RVec, lBits: nat)
    requires IsRVec(a, lBits) && IsRVec(b, lBits)
    ensures Normalize(XorWords(a, b), lBits) == XorWords(Normalize(a, lBits), Normalize(b, lBits))
  {
    var l, r := Normalize(XorWords(a, b), lBits), XorWords(Normalize(a, lBits), Normalize(b, lBits));
    forall i | 0 <= i < |l| ensures l[i] == r[i] {
      forall j | 0 <= j < 32 ensures l[i][j] == r[i][j] {}
    }
  }

  lemma NormalizeTwice(a: RVec, lBits: nat)
    requires IsRVec(a, lBits)
    ensures Normalize(Normalize(a, lBits), lBits) == Normalize(a, lBits)
  {
    var l, r := Normalize(Normalize(a, lBits), lBits), Normalize(a, lBits);
    forall i | 0 <= i < |l| ensures l[i] == r[i] {
      forall j | 0 <= j < 32 ensures l[i][j] == r[i][j] {}
    }
  }

  lemma XorCancels(a: RVec, b: RVec, c: RVec)
    requires |a| == |b| == |c|
    ensures XorWords(XorWords(b, c), XorWords(XorWords(a, b), c)) == a
  {
    var l := XorWords(XorWords(b, c), XorWords(XorWords(a, b), c));
    forall i | 0 <= i < |a| ensures l[i] == a[i] {
      forall j | 0 <= j < 32 ensures l[i][j] == a[i][j] {}
    }
  }

  function VectorShares(lBits: nat, r: RVec, rnd0: RVec, rnd1: RVec): Triple<RVec>
    requires IsRVec(r, lBits) && IsRVec(rnd0, lBits) && IsRVec(rnd1, lBits)
  {
    var r0, r1 := Normalize(rnd0, lBits), Normalize(rnd1, lBits);
    Triple(r0, r1, Normalize(XorWords(XorWords(r, r0), r1), lBits))
  }

  function WordShares(msg: Word, w0: Word, w1: Word): Triple<Word> {
    var m0, m1 := BitWord(w0[0]), BitWord(w1[0]);
    Triple(m0, m1, Xor(Xor(msg, m0), m1))
  }

  /** share_secrets: from random vectors and words, shares of r and of the message word. */
  method ShareSecrets(lBits: nat, r: RVec, msg: Word, rnd0: RVec, rnd1: RVec, w0: Word, w1: Word)
    returns (rs: Triple<RVec>, ms: Triple<Word>)
    requires Canonical(r, lBits) && IsRVec(rnd0, lBits) && IsRVec(rnd1, lBits)
    ensures ShareVectors(rs, lBits) && XorVec3(rs) == r
    ensures Xor3(ms) == msg
    ensures rs == VectorShares(lBits, r, rnd0, rnd1) && ms == WordShares(msg, w0, w1)
  {
    var r0, r1 := Normalize(rnd0, lBits), Normalize(rnd1, lBits);
    var r2 := new Word[LWords(lBits)](_ => ZERO);
    var j := 0;
    while j < LWords(lBits)
      invariant 0 <= j <= LWords(lBits)
      invariant forall i :: 0 <= i < j ==> r2[i] == Xor(Xor(r[i], r0[i]), r1[i])
    {
      r2[j] := Xor(Xor(r[j], r0[j]), r1[j]);
      j := j + 1;
    }
    assert r2[..] == XorWords(XorWords(r, r0), r1);
    rs := Triple(r0, r1, Normalize(r2[..], lBits));
    ThirdVector(lBits, r, r0, r1, rnd0, rnd1);
    var m0, m1 := BitWord(w0[0]), BitWord(w1[0]);
    ms := Triple(m0, m1, Xor(Xor(msg, m0), m1));
    assert Xor3(ms) == msg by {
      forall i | 0 <= i < 32 ensures Xor3(ms)[i] == msg[i] {}
    }
  }

  lemma ThirdVector(lBits: nat, r: RVec, r0: RVec, r1: RVec, rnd0: RVec, rnd1: RVec)
    requires Canonical(r, lBits) && IsRVec(rnd0, lBits) && IsRVec(rnd1, lBits)
    requires r0 == Normalize(rnd0, lBits) && r1 == Normalize(rnd1, lBits)
    ensures XorVec3(Triple(r0, r1, Normalize(XorWords(XorWords(r, r0), r1), lBits))) == r
  {
    NormalizeXor(XorWords(r, r0), r1, lBits);
    NormalizeXor(r, r0, lBits);
    NormalizeTwice(rnd0, lBits);
    NormalizeTwice(rnd1, lBits);
    CanonicalFixed(r, lBits);
    XorCancels(r, r0, r1);
  }

  lemma CanonicalFixed(r: RVec, lBits: nat)
    requires Canonical(r, lBits)
    ensures Normalize(r, lBits) == r
  {
    var n := Normalize(r, lBits);
    forall i | 0 <= i < |r| ensures n[i] == r[i] {
      forall j | 0 <= j < 32 ensures n[i][j] == r[i][j] {
        var k := 32 * i + j;
        assert k / 32 == i && k % 32 == j;
        if k >= lBits { assert !BitOf(r, k); }
      }
    }
  }

  // ----- the prover

  ghost function ValueOf(v: View): ViewVal
    reads v, v.y
  {
    ViewVal(v.x, v.msg, v.y[..])
  }

  /** Views that hold input shares, message shares and recorded words. */
  function ViewsOf(x: Triple<RVec>, m: Triple<Word>, ys: seq<Triple<Word>>): Triple<ViewVal> {
    Triple(ViewVal(x.p0, StoreLE(m.p0), Column(ys, 0)),
           ViewVal(x.p1, StoreLE(m.p1), Column(ys, 1)),
           ViewVal(x.p2, StoreLE(m.p2), Column(ys, 2)))
  }

  /** What a run of one round puts in the three views. The prover's runs have no low carry bits. */
  function RunViews(x: Triple<RVec>, m: Triple<Word>, tapes: Tapes, lows: Lows, lBits: nat): (v: Triple<ViewVal>)
    requires IsRVec(x.p0, lBits) && IsRVec(x.p1, lBits) && IsRVec(x.p2, lBits)
  {
    InputBytesLength(x, lBits);
    ViewsOf(x, m, ProverRun(InputBytes(x, lBits), tapes, lows).0.ys)
  }

  function RunOutputs(x: Triple<RVec>, tapes: Tapes, lows: Lows, lBits: nat): Triple<seq<Word>>
    requires IsRVec(x.p0, lBits) && IsRVec(x.p1, lBits) && IsRVec(x.p2, lBits)
  {
    InputBytesLength(x, lBits);
    OutputShares(ProverRun(InputBytes(x, lBits), tapes, lows).1)
  }

  /** mpc_hm_prove followed by hash_views. */
  method ProveRound(p: Primitives, lBits: nat, v0: View, v1: View, v2: View, keys: Triple<Bytes>, rs: Triple<Bytes>,
                    A: seq<Word>, x: Triple<RVec>, m: Triple<Word>) returns (a: Commit)
    requires ShareVectors(x, lBits) && LWords(lBits) < |A|
    requires v0 != v1 && v1 != v2 && v0 != v2 && v0.y != v1.y && v1.y != v2.y && v0.y != v2.y
    requires v0.y.Length == v1.y.Length == v2.y.Length == ViewWords(lBits)
    modifies v0, v1, v2, v0.y, v1.y, v2.y
    ensures Triple(ValueOf(v0), ValueOf(v1), ValueOf(v2)) == RunViews(x, m, KeyTapes(p, keys, lBits), [], lBits)
    ensures a == RunCommit(p, keys, rs, A, x, m, [], lBits)
  {
    hide NumBlocks, ProverRun, InputBytes, OutputShares, TapesOf, InnerShares, StreamBytes;
    var t0 := KeyStream(p, keys.p0, 4 * ViewWords(lBits));
    var t1 := KeyStream(p, keys.p1, 4 * ViewWords(lBits));
    var t2 := KeyStream(p, keys.p2, 4 * ViewWords(lBits));
    var tapes := Triple(t0, t1, t2);
    var outs := MpcSha256Prove(lBits, x, tapes, v0, v1, v2);
    v0.msg, v1.msg, v2.msg := StoreLE(m.p0), StoreLE(m.p1), StoreLE(m.p2);
    var y2p := InnerProdProve(A, m, x, lBits);
    ghost var ys := ProverRun(InputBytes(x, lBits), TapesOf(tapes), []).0.ys;
    ColumnsOf(ys, v0.y[..], v1.y[..], v2.y[..]);
    a := Commit(outs.p0, outs.p1, y2p,
                Triple(p.viewHash(keys.p0, ViewVal(v0.x, v0.msg, v0.y[..]), rs.p0),
                       p.viewHash(keys.p1, ViewVal(v1.x, v1.msg, v1.y[..]), rs.p1),
                       p.viewHash(keys.p2, ViewVal(v2.x, v2.msg, v2.y[..]), rs.p2)));
  }

  lemma ColumnsOf(ys: seq<Triple<Word>>, y0: seq<Word>, y1: seq<Word>, y2: seq<Word>)
    requires |ys| == |y0| == |y1| == |y2|
    requires forall i :: 0 <= i < |ys| ==> Triple(y0[i], y1[i], y2[i]) == ys[i]
    ensures y0 == Column(ys, 0) && y1 == Column(ys, 1) && y2 == Column(ys, 2)
  {}

  /** The word tapes the three keys expand to. */
  function KeyTapes(p: Primitives, keys: Triple<Bytes>, lBits: nat): Tapes {
    TapesOf(Triple(Tape(p, keys.p0, lBits), Tape(p, keys.p1, lBits), Tape(p, keys.p2, lBits)))
  }

  function HashViews(p: Primitives, keys: Triple<Bytes>, views: Triple<ViewVal>, rs: Triple<Bytes>): Triple<Digest> {
    Triple(p.viewHash(keys.p0, views.p0, rs.p0), p.viewHash(keys.p1, views.p1, rs.p1),
           p.viewHash(keys.p2, views.p2, rs.p2))
  }

  function RunCommit(p: Primitives, keys: Triple<Bytes>, rs: Triple<Bytes>, A: seq<Word>,
                     x: Triple<RVec>, m: Triple<Word>, lows: Lows, lBits: nat): Commit
    requires IsRVec(x.p0, lBits) && IsRVec(x.p1, lBits) && IsRVec(x.p2, lBits) && LWords(lBits) < |A|
  {
    var outs := RunOutputs(x, KeyTapes(p, keys, lBits), lows, lBits);
    Commit(outs.p0, outs.p1, InnerShares(A, m, x, lBits),
           HashViews(p, keys, RunViews(x, m, KeyTapes(p, keys, lBits), lows, lBits), rs))
  }

  /** open. */
  function OpenViews(e: nat, keys: Triple<Bytes>, rs: Triple<Bytes>, views: Triple<ViewVal>): Open {
    Open(Opened(keys, e), Opened(rs, e), Opened(views, e))
  }

  // ----- the verifier

  /** A view and a commitment of the sizes the protocol fixes. */
  predicate WellFormedView(v: ViewVal, lBits: nat) {
    IsRVec(v.x, lBits) && |v.msg| == 4 && |v.y| == ViewWords(lBits)
  }

  predicate WellFormedCommit(a: Commit) { |a.yp0| == |a.yp1| == 8 }

  predicate ViewsHashed(p: Primitives, a: Commit, z: Open, e: nat) {
    && a.h.At(e) == p.viewHash(z.keys.own, z.views.own, z.rs.own)
    && a.h.At(e + 1) == p.viewHash(z.keys.next, z.views.next, z.rs.next)
  }

  predicate CircuitAccepts(p: Primitives, lBits: nat, a: Commit, z: Open, d: Digest, e: nat)
    requires WellFormedView(z.views.own, lBits) && WellFormedView(z.views.next, lBits) && WellFormedCommit(a)
  {
    Accepts(Pair(RBytes(z.views.own.x, lBits), RBytes(z.views.next.x, lBits)),
            Pair(TapeOf(Tape(p, z.keys.own, lBits)), TapeOf(Tape(p, z.keys.next, lBits))),
            Pair(z.views.own.y, z.views.next.y), Opened(ReconstructShares(a, d), e))
  }

  /** What mpc_hm_verify decides. */
  predicate RoundAccepts(p: Primitives, lBits: nat, H: HashKey, a: Commit, z: Open, d: Digest, e: nat)
    requires WellFormedView(z.views.own, lBits) && WellFormedView(z.views.next, lBits) && WellFormedCommit(a)
    requires LWords(lBits) < |H.A| && |H.b| > 0
  {
    && ViewsHashed(p, a, z, e) && CircuitAccepts(p, lBits, a, z, d, e)
    && InnerAccepts(H.A, H.b[0][0], Pair(LoadLE(z.views.own.msg), LoadLE(z.views.next.msg)),
                    Pair(z.views.own.x, z.views.next.x), lBits, a.y2p, e)
  }

  /** mpc_hm_verify: the two view hashes, then the circuit, then the inner product. */
  method VerifyRound(p: Primitives, lBits: nat, H: HashKey, a: Commit, keys: Pair<Bytes>, rs: Pair<Bytes>, ve: View,
                     ve1: View, d: Digest, e: nat)
    returns (ok: bool)
    requires WellFormedView(ValueOf(ve), lBits) && WellFormedView(ValueOf(ve1), lBits) && WellFormedCommit(a)
    requires LWords(lBits) < |H.A| && |H.b| > 0 && e < 3
    ensures ok == RoundAccepts(p, lBits, H, a, Open(keys, rs, Pair(ValueOf(ve), ValueOf(ve1))), d, e)
  {
    hide Accepts, InnerAccepts, StreamBytes, TapeOf, RBytes, NumBlocks, ReconstructShares;
    var outs := ReconstructShares(a, d);
    if a.h.At(e) != p.viewHash(keys.own, ViewVal(ve.x, ve.msg, ve.y[..]), rs.own) { return false; }
    if a.h.At(e + 1) != p.viewHash(keys.next, ViewVal(ve1.x, ve1.msg, ve1.y[..]), rs.next) { return false; }
    var t0 := KeyStream(p, keys.own, 4 * ViewWords(lBits));
    var t1 := KeyStream(p, keys.next, 4 * ViewWords(lBits));
    ok := Verifier.MpcSha256Verify(lBits, outs, e, Pair(t0, t1), ve, ve1);
    if !ok { return; }
    ok := InnerProdVerify(H.A, H.b[0][0], Pair(LoadLE(ve.msg), LoadLE(ve1.msg)), Pair(ve.x, ve1.x), lBits, a.y2p, e);
  }
}
