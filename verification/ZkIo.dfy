/** The commitment string and the proof file: fixed-size records at fixed offsets. */
module ZkIo {
  import opened Bits
  import opened Memory
  import opened ByteViews
  import opened HaleviMicali
  import Prover
  import Sha256

  // ----- one record

  const COMMIT_SIZE: nat := 172
  const KEYS_SIZE: nat := 40

  function ViewSize(lBits: nat): nat { 4 * LWords(lBits) + 4 + 4 * ViewWords(lBits) }

  function RecordSize(lBits: nat): (size: nat)
    ensures size > 0
  {
    COMMIT_SIZE + KEYS_SIZE + 2 * ViewSize(lBits)
  }

  function CommitBytes(a: Commit): (b: Bytes)
    requires WellFormedCommit(a)
    ensures |b| == COMMIT_SIZE
  {
    ToBytes(a.yp0, 32) + ToBytes(a.yp1, 32) + ToBytes([a.y2p.p0, a.y2p.p1, a.y2p.p2], 12) + a.h.p0 + a.h.p1 + a.h.p2
  }

  function DecodeCommit(b: Bytes): (a: Commit)
    requires |b| == COMMIT_SIZE
    ensures WellFormedCommit(a)
  {
    var y := ToWords(b[64..76], 3);
    Commit(ToWords(b[0..32], 8), ToWords(b[32..64], 8), Triple(y[0], y[1], y[2]),
           Triple(b[76..108], b[108..140], b[140..172]))
  }

  lemma CommitRoundTrip(a: Commit)
    requires WellFormedCommit(a)
    ensures DecodeCommit(CommitBytes(a)) == a
  {
    hide ToBytes, ToWords;
    var b := CommitBytes(a);
    assert b[0..32] == ToBytes(a.yp0, 32) && b[32..64] == ToBytes(a.yp1, 32);
    assert b[64..76] == ToBytes([a.y2p.p0, a.y2p.p1, a.y2p.p2], 12);
    assert b[76..108] == a.h.p0 && b[108..140] == a.h.p1 && b[140..172] == a.h.p2;
    WordsRoundTrip(a.yp0);
    WordsRoundTrip(a.yp1);
    WordsRoundTrip([a.y2p.p0, a.y2p.p1, a.y2p.p2]);
  }

  function ViewBytes(v: ViewVal, lBits: nat): (b: Bytes)
    requires WellFormedView(v, lBits)
    ensures |b| == ViewSize(lBits)
  {
    ToBytes(v.x, 4 * |v.x|) + v.msg + ToBytes(v.y, 4 * |v.y|)
  }

  function DecodeView(b: Bytes, lBits: nat): (v: ViewVal)
    requires |b| == ViewSize(lBits)
    ensures WellFormedView(v, lBits)
  {
    var n := 4 * LWords(lBits);
    ViewVal(ToWords(b[..n], LWords(lBits)), b[n..n + 4], ToWords(b[n + 4..], ViewWords(lBits)))
  }

  lemma ViewRoundTrip(v: ViewVal, lBits: nat)
    requires WellFormedView(v, lBits)
    ensures DecodeView(ViewBytes(v, lBits), lBits) == v
  {
    hide ToBytes, ToWords, ViewWords;
    var b := ViewBytes(v, lBits);
    var n := 4 * LWords(lBits);
    assert b[..n] == ToBytes(v.x, 4 * |v.x|) && b[n..n + 4] == v.msg && b[n + 4..] == ToBytes(v.y, 4 * |v.y|);
    WordsRoundTrip(v.x);
    WordsRoundTrip(v.y);
  }

  predicate WellFormedOpen(z: Open, lBits: nat) {
    && |z.keys.own| == |z.keys.next| == 16 && |z.rs.own| == |z.rs.next| == 4
    && WellFormedView(z.views.own, lBits) && WellFormedView(z.views.next, lBits)
  }

  /** The byte string of one round: commitment, keys, nonces, the two views. */
  function RecordBytes(a: Commit, z: Open, lBits: nat): (b: Bytes)
    requires WellFormedCommit(a) && WellFormedOpen(z, lBits)
    ensures |b| == RecordSize(lBits)
  {
    CommitBytes(a) + z.keys.own + z.keys.next + z.rs.own + z.rs.next
    + ViewBytes(z.views.own, lBits) + ViewBytes(z.views.next, lBits)
  }

  function DecodeRecord(b: Bytes, lBits: nat): (r: (Commit, Open))
    requires |b| == RecordSize(lBits)
    ensures WellFormedCommit(r.0) && WellFormedOpen(r.1, lBits)
  {
    var v := ViewSize(lBits);
    (DecodeCommit(b[..172]),
     Open(Pair(b[172..188], b[188..204]), Pair(b[204..208], b[208..212]),
          Pair(DecodeView(b[212..212 + v], lBits), DecodeView(b[212 + v..212 + 2 * v], lBits))))
  }

  /** Reading back what was written gives the same commitment, keys, nonces and views. */
  lemma RecordRoundTrip(a: Commit, z: Open, lBits: nat)
    requires WellFormedCommit(a) && WellFormedOpen(z, lBits)
    ensures DecodeRecord(RecordBytes(a, z, lBits), lBits) == (a, z)
  {
    hide CommitBytes, DecodeCommit, ViewBytes, DecodeView, ViewSize, WellFormedView;
    var b, v := RecordBytes(a, z, lBits), ViewSize(lBits);
    assert b[..172] == CommitBytes(a);
    assert b[172..188] == z.keys.own && b[188..204] == z.keys.next;
    assert b[204..208] == z.rs.own && b[208..212] == z.rs.next;
    assert b[212..212 + v] == ViewBytes(z.views.own, lBits);
    assert b[212 + v..212 + 2 * v] == ViewBytes(z.views.next, lBits);
    CommitRoundTrip(a);
    ViewRoundTrip(z.views.own, lBits);
    ViewRoundTrip(z.views.next, lBits);
  }

  /** Where each part of a record is: two output shares, three zero-commitment shares, three hashes,
      two keys, two nonces, two views. */
  lemma RecordLayout(a: Commit, z: Open, lBits: nat)
    requires WellFormedCommit(a) && WellFormedOpen(z, lBits)
    ensures |RecordBytes(a, z, lBits)| == RecordSize(lBits) == 212 + 2 * ViewSize(lBits)
    ensures RecordBytes(a, z, lBits)[..32] == ToBytes(a.yp0, 32)
    ensures RecordBytes(a, z, lBits)[32..64] == ToBytes(a.yp1, 32)
    ensures RecordBytes(a, z, lBits)[64..76] == StoreLE(a.y2p.p0) + StoreLE(a.y2p.p1) + StoreLE(a.y2p.p2)
    ensures RecordBytes(a, z, lBits)[76..172] == a.h.p0 + a.h.p1 + a.h.p2
    ensures RecordBytes(a, z, lBits)[172..204] == z.keys.own + z.keys.next
    ensures RecordBytes(a, z, lBits)[204..212] == z.rs.own + z.rs.next
    ensures RecordBytes(a, z, lBits)[212..212 + ViewSize(lBits)] == ViewBytes(z.views.own, lBits)
    ensures RecordBytes(a, z, lBits)[212 + ViewSize(lBits)..] == ViewBytes(z.views.next, lBits)
  {
    hide ToBytes, ViewBytes, ViewSize, WellFormedView, StoreLE;
    ThreeWords(a.y2p.p0, a.y2p.p1, a.y2p.p2);
    var b := CommitBytes(a);
    assert b[..32] == ToBytes(a.yp0, 32) && b[32..64] == ToBytes(a.yp1, 32);
    assert b[64..76] == ToBytes([a.y2p.p0, a.y2p.p1, a.y2p.p2], 12) && b[76..172] == a.h.p0 + a.h.p1 + a.h.p2;
    PartsInPlace(b, z.keys.own, z.keys.next, z.rs.own, z.rs.next,
                 ViewBytes(z.views.own, lBits), ViewBytes(z.views.next, lBits));
  }

  lemma PartsInPlace(b: Bytes, k: Bytes, l: Bytes, r: Bytes, s: Bytes, v: Bytes, w: Bytes)
    requires |b| == 172 && |k| == |l| == 16 && |r| == |s| == 4
    ensures var c := b + k + l + r + s + v + w;
      && c[..32] == b[..32] && c[32..64] == b[32..64] && c[64..76] == b[64..76] && c[76..172] == b[76..172]
      && c[172..204] == k + l && c[204..212] == r + s && c[212..212 + |v|] == v && c[212 + |v|..] == w
  {}

  lemma ThreeWords(p: Word, q: Word, r: Word)
    ensures ToBytes([p, q, r], 12) == StoreLE(p) + StoreLE(q) + StoreLE(r)
  {
    var t, u := ToBytes([p, q, r], 12), StoreLE(p) + StoreLE(q) + StoreLE(r);
    hide ToBytes, Sha256.ByteOf;
    forall i | 0 <= i < 12 ensures t[i] == u[i] {
      ToBytesEntry([p, q, r], 12, i);
      WordByte(p, i % 4);
      WordByte(q, i % 4);
      WordByte(r, i % 4);
    }
  }

  lemma WordByte(w: Word, j: nat)
    requires j < 4
    ensures StoreLE(w)[j] == Sha256.ByteOf(w, j)
  {}

  /** Where each part of a view is: the input share, the message share, the recorded words. */
  lemma ViewLayout(v: ViewVal, lBits: nat)
    requires WellFormedView(v, lBits)
    ensures |ViewBytes(v, lBits)| == 4 * LWords(lBits) + 4 + 4 * ViewWords(lBits)
    ensures ViewBytes(v, lBits)[..4 * LWords(lBits)] == ToBytes(v.x, 4 * |v.x|)
    ensures ViewBytes(v, lBits)[4 * LWords(lBits)..4 * LWords(lBits) + 4] == v.msg
    ensures ViewBytes(v, lBits)[4 * LWords(lBits) + 4..] == ToBytes(v.y, 4 * |v.y|)
  {
    hide ToBytes, ViewWords, LWords;
  }

  // ----- the file

  /** pwrite: bytes b at offset off; a gap is filled with zero bytes. */
  function Overwrite(d: Bytes, off: nat, b: Bytes): Bytes {
    var before := if |d| < off then d + seq(off - |d|, _ => Zeros(8)) else d[..off];
    before + b + (if off + |b| < |d| then d[off + |b|..] else [])
  }

  /** The file after a record is written at its round's offset. */
  function WriteRecord(d: Bytes, round: nat, rec: Bytes): Bytes {
    Overwrite(d, round * |rec|, rec)
  }

  class ProofFile {
    var data: Bytes

    constructor ()
      ensures data == []
    {
      data := [];
    }

    /** pwrite, which may write only the first room bytes and returns how many it wrote. */
    method PWrite(b: Bytes, off: nat, room: nat) returns (n: nat)
      modifies this
      ensures n == if |b| <= room then |b| else room
      ensures n == 0 ==> data == old(data)
      ensures n > 0 ==> Written(old(data), data, off, b[..n])
    {
      n := if |b| <= room then |b| else room;
      if n > 0 { data := Overwrite(data, off, b[..n]); }
    }

    /** pread: the bytes from offset off, at most n and fewer at the end of the file. */
    method PRead(off: nat, n: nat) returns (b: Bytes)
      ensures |b| <= n && (|b| == n <==> n == 0 || off + n <= |data|)
      ensures |b| < n ==> off + |b| == |data| || b == []
      ensures forall i :: 0 <= i < |b| ==> off + i < |data| && b[i] == data[off + i]
    {
      if off + n <= |data| { b := data[off..off + n]; }
      else if off <= |data| { b := data[off..]; }
      else { b := []; }
    }
  }

  /** b is at offset off, the bytes outside are kept, a gap is zero, and the file ends where it must. */
  ghost predicate Written(before: Bytes, after: Bytes, off: nat, b: Bytes) {
    && HoldsAt(after, off, b)
    && |after| == (if |before| <= off + |b| then off + |b| else |before|)
    && (forall i :: 0 <= i < |before| && !(off <= i < off + |b|) ==> after[i] == before[i])
    && (forall i :: |before| <= i < off ==> after[i] == Zeros(8))
  }

  lemma WrittenIsOverwrite(before: Bytes, after: Bytes, off: nat, b: Bytes)
    requires Written(before, after, off, b)
    ensures after == Overwrite(before, off, b)
  {
    var e := Overwrite(before, off, b);
    forall i | 0 <= i < |e| ensures after[i] == e[i] {
      if off <= i < off + |b| { assert after[off..off + |b|][i - off] == b[i - off]; }
    }
  }

  /** The buffer of hm_zk_write_proof_round, filled field by field. */
  method FillRecord(buf: array<Byte>, a: Commit, z: Open, lBits: nat) returns (bufIdx: nat)
    requires WellFormedCommit(a) && WellFormedOpen(z, lBits) && RecordSize(lBits) <= buf.Length
    modifies buf
    ensures bufIdx == RecordSize(lBits) && buf[..bufIdx] == RecordBytes(a, z, lBits)
  {
    hide CommitBytes, ViewBytes, ViewSize, WellFormedView;
    bufIdx := 0;
    bufIdx := Append(buf, bufIdx, CommitBytes(a));
    bufIdx := Append(buf, bufIdx, z.keys.own);
    bufIdx := Append(buf, bufIdx, z.keys.next);
    bufIdx := Append(buf, bufIdx, z.rs.own);
    bufIdx := Append(buf, bufIdx, z.rs.next);
    bufIdx := Append(buf, bufIdx, ViewBytes(z.views.own, lBits));
    bufIdx := Append(buf, bufIdx, ViewBytes(z.views.next, lBits));
  }

  /** hm_zk_write_proof_round: fills the buffer, then writes it at round * size. */
  method WriteRound(f: ProofFile, buf: array<Byte>, round: nat, a: Commit, z: Open, lBits: nat, room: nat)
    returns (ok: bool)
    requires WellFormedCommit(a) && WellFormedOpen(z, lBits)
    modifies f, buf
    ensures ok <==> RecordSize(lBits) <= buf.Length && RecordSize(lBits) <= room
    ensures ok ==> f.data == WriteRecord(old(f.data), round, RecordBytes(a, z, lBits))
    ensures RecordSize(lBits) > buf.Length ==> f.data == old(f.data)
  {
    hide RecordBytes, RecordSize, WellFormedView, Overwrite, Written;
    var size := RecordSize(lBits);
    if buf.Length < size { return false; }
    var bufIdx := FillRecord(buf, a, z, lBits);
    ghost var before := f.data;
    var nWrite := f.PWrite(buf[..size], round * size, room);
    ok := nWrite == bufIdx;
    if ok {
      assert buf[..size][..nWrite] == buf[..size];
      WrittenIsOverwrite(before, f.data, round * size, buf[..size]);
    }
  }

  method Append(buf: array<Byte>, idx: nat, src: Bytes) returns (next: nat)
    requires idx + |src| <= buf.Length
    modifies buf
    ensures next == idx + |src| && buf[..next] == old(buf[..idx]) + src
  {
    Prover.CopyInto(buf, idx, src);
    next := idx + |src|;
  }

  /** What reading a record gives besides the two views. */
  datatype Reading = Failed | Read(a: Commit, keys: Pair<Bytes>, rs: Pair<Bytes>)

  /** hm_zk_read_proof_round: a small buffer, a short read and a missing view are errors. */
  method ReadRound(f: ProofFile, buf: array<Byte>, round: nat, lBits: nat, ve: Prover.View?, ve1: Prover.View?)
    returns (r: Reading)
    requires ve != null ==> ve.y.Length == ViewWords(lBits)
    requires ve1 != null ==> ve1.y.Length == ViewWords(lBits)
    requires ve != null && ve1 != null ==> ve != ve1 && ve.y != ve1.y
    modifies buf, ve, ve1, if ve == null then {} else {ve.y}, if ve1 == null then {} else {ve1.y}
    ensures r.Read? <==>
      && RecordSize(lBits) <= buf.Length && round * RecordSize(lBits) + RecordSize(lBits) <= |f.data|
      && ve != null && ve1 != null
    ensures r.Read? ==> (r.a, Open(r.keys, r.rs, Pair(ValueOf(ve), ValueOf(ve1)))) == RecordAt(f.data, round, lBits)
  {
    hide DecodeRecord, RecordSize, ViewWords;
    var size := RecordSize(lBits);
    if buf.Length < size { return Failed; }
    var full := ReadBytes(f, buf, round * size, size);
    if !full { return Failed; }
    var rec := DecodeRecord(buf[..size], lBits);
    if ve == null || ve1 == null { return Failed; }
    LoadView(ve, rec.1.views.own);
    LoadView(ve1, rec.1.views.next);
    r := Read(rec.0, rec.1.keys, rec.1.rs);
  }

  /** pread into the buffer. */
  method ReadBytes(f: ProofFile, buf: array<Byte>, off: nat, size: nat) returns (full: bool)
    requires 0 < size <= buf.Length
    modifies buf
    ensures full <==> off + size <= |f.data|
    ensures full ==> buf[..size] == f.data[off..off + size]
  {
    var b := f.PRead(off, size);
    full := |b| == size;
    if full {
      var nRead := Append(buf, 0, b);
      assert buf[..size] == b;
    }
  }

  /** The record of a round, decoded from the file. */
  function RecordAt(d: Bytes, round: nat, lBits: nat): (Commit, Open)
    requires round * RecordSize(lBits) + RecordSize(lBits) <= |d|
  {
    DecodeRecord(d[round * RecordSize(lBits)..round * RecordSize(lBits) + RecordSize(lBits)], lBits)
  }

  /** Copies a view out of the buffer into the view object the verifier works on. */
  method LoadView(v: Prover.View, from: ViewVal)
    requires v.y.Length == |from.y|
    modifies v, v.y
    ensures ValueOf(v) == from
  {
    v.x, v.msg := from.x, from.msg;
    var i := 0;
    while i < v.y.Length
      invariant 0 <= i <= v.y.Length && v.x == from.x && v.msg == from.msg
      invariant v.y[..i] == from.y[..i]
    {
      v.y[i] := from.y[i];
      i := i + 1;
    }
  }

  // ----- any order of the rounds gives the same file

  /** The file after writing the records order[0], order[1], ... at their offsets. */
  function WriteAll(order: seq<nat>, recs: seq<Bytes>, size: nat): Bytes
    requires forall i :: 0 <= i < |order| ==> order[i] < |recs|
  {
    if order == [] then []
    else
      var k := order[|order| - 1];
      Overwrite(WriteAll(order[..|order| - 1], recs, size), k * size, recs[k])
  }

  function Concat(recs: seq<Bytes>): Bytes {
    if recs == [] then [] else Concat(recs[..|recs| - 1]) + recs[|recs| - 1]
  }

  ghost predicate HoldsAt(d: Bytes, off: nat, b: Bytes) {
    off + |b| <= |d| && d[off..off + |b|] == b
  }

  /** Record k is in the file. */
  ghost predicate Holds(d: Bytes, k: nat, size: nat, rec: Bytes) {
    |rec| == size && HoldsAt(d, k * size, rec)
  }

  lemma Offsets(j: nat, k: nat, size: nat)
    requires j < k
    ensures j * size + size <= k * size
  {
    assert (k - j - 1) * size >= 0;
    assert k * size == j * size + size + (k - j - 1) * size;
  }

  lemma OverwriteReads(d: Bytes, off: nat, b: Bytes)
    ensures HoldsAt(Overwrite(d, off, b), off, b)
  {}

  lemma OverwriteKeeps(d: Bytes, off: nat, b: Bytes, at: nat, c: Bytes)
    requires HoldsAt(d, at, c) && (at + |c| <= off || off + |b| <= at)
    ensures HoldsAt(Overwrite(d, off, b), at, c)
  {
    var e := Overwrite(d, off, b);
    forall i | at <= i < at + |c| ensures e[i] == d[i] {}
    assert e[at..at + |c|] == d[at..at + |c|];
  }

  lemma OverwriteHolds(d: Bytes, k: nat, size: nat, rec: Bytes, j: nat, kept: Bytes)
    requires |rec| == size
    ensures Holds(Overwrite(d, k * size, rec), k, size, rec)
    ensures j != k && Holds(d, j, size, kept) ==> Holds(Overwrite(d, k * size, rec), j, size, kept)
  {
    hide Overwrite, HoldsAt;
    OverwriteReads(d, k * size, rec);
    if j != k && Holds(d, j, size, kept) {
      if j < k { Offsets(j, k, size); } else { Offsets(k, j, size); }
      OverwriteKeeps(d, k * size, rec, j * size, kept);
    }
  }

  lemma {:induction false} WrittenHolds(order: seq<nat>, recs: seq<Bytes>, size: nat, k: nat)
    requires forall i :: 0 <= i < |order| ==> order[i] < |recs|
    requires forall i :: 0 <= i < |recs| ==> |recs[i]| == size
    ensures |WriteAll(order, recs, size)| <= |recs| * size
    ensures k in order ==> Holds(WriteAll(order, recs, size), k, size, recs[k])
  {
    if order != [] {
      hide Overwrite, Holds;
      var n := |order| - 1;
      WrittenHolds(order[..n], recs, size, k);
      var d := WriteAll(order[..n], recs, size);
      var j := order[n];
      OverwriteHolds(d, j, size, recs[j], k, if k in order[..n] then recs[k] else []);
      OverwriteLength(d, j, size, recs[j], |recs|);
      if k in order && k != j { assert k in order[..n]; }
    }
  }

  lemma OverwriteLength(d: Bytes, k: nat, size: nat, rec: Bytes, n: nat)
    requires |rec| == size && k < n && |d| <= n * size
    ensures |Overwrite(d, k * size, rec)| <= n * size
  {
    Offsets(k, n, size);
  }

  lemma {:induction false} HoldsConcat(d: Bytes, recs: seq<Bytes>, size: nat)
    requires |d| == |recs| * size
    requires forall k :: 0 <= k < |recs| ==> Holds(d, k, size, recs[k])
    ensures d == Concat(recs)
  {
    if recs != [] {
      var n := |recs| - 1;
      assert (n + 1) * size == n * size + size;
      var e := d[..n * size];
      forall k | 0 <= k < n ensures Holds(e, k, size, recs[..n][k]) {
        Offsets(k, n, size);
        assert Holds(d, k, size, recs[k]);
        assert e[k * size..k * size + size] == d[k * size..k * size + size];
      }
      HoldsConcat(e, recs[..n], size);
      assert Holds(d, n, size, recs[n]);
      assert d == e + d[n * size..n * size + size];
    } else {
      assert 0 * size == 0;
    }
  }

  /** Whatever the order in which the rounds are written, as long as every round is, the file is the
      concatenation of the records. */
  lemma AnyOrderSameFile(order: seq<nat>, recs: seq<Bytes>, size: nat)
    requires forall i :: 0 <= i < |order| ==> order[i] < |recs|
    requires forall k :: 0 <= k < |recs| ==> k in order
    requires forall i :: 0 <= i < |recs| ==> |recs[i]| == size
    ensures WriteAll(order, recs, size) == Concat(recs)
    ensures forall k :: 0 <= k < |recs| ==> Holds(Concat(recs), k, size, recs[k])
  {
    hide WriteAll;
    var d := WriteAll(order, recs, size);
    forall k | 0 <= k < |recs| ensures Holds(d, k, size, recs[k]) {
      WrittenHolds(order, recs, size, k);
    }
    WrittenHolds(order, recs, size, 0);
    if recs != [] {
      var n := |recs| - 1;
      assert Holds(d, n, size, recs[n]);
      assert (n + 1) * size == n * size + size;
    } else {
      assert 0 * size == 0;
    }
    HoldsConcat(d, recs, size);
  }

  // ----- the commitment string

  /** hm_zk_write_commitment: the matrix key, the masked bits, the digest of the opening. */
  function CommitmentString(keyH: Bytes, b: Bytes, d: Digest): Bytes { keyH + b + d }

  /** hm_zk_read_commitment, for a commitment of the fixed length. */
  function ReadCommitment(c: Bytes): (Bytes, Bytes, Digest)
    requires |c| == 49
  {
    (c[..16], c[16..17], c[17..49])
  }

  lemma CommitmentRoundTrip(keyH: Bytes, b: Bytes, d: Digest)
    requires |keyH| == 16 && |b| == 1
    ensures |CommitmentString(keyH, b, d)| == 49
    ensures ReadCommitment(CommitmentString(keyH, b, d)) == (keyH, b, d)
  {
    var c := CommitmentString(keyH, b, d);
    assert c[..16] == keyH && c[16..17] == b && c[17..49] == d;
  }

  /** The string byte by byte: 16 bytes of key, one of masked bits, 32 of digest. */
  lemma CommitmentLayout(keyH: Bytes, b: Bytes, d: Digest)
    requires |keyH| == 16 && |b| == 1
    ensures |CommitmentString(keyH, b, d)| == 49
    ensures forall i :: 0 <= i < 16 ==> CommitmentString(keyH, b, d)[i] == keyH[i]
    ensures CommitmentString(keyH, b, d)[16] == b[0]
    ensures forall i :: 0 <= i < 32 ==> CommitmentString(keyH, b, d)[17 + i] == d[i]
  {}

  /** And read from the same places. */
  lemma ReadLayout(c: Bytes)
    requires |c| == 49
    ensures |ReadCommitment(c).0| == 16 && forall i :: 0 <= i < 16 ==> ReadCommitment(c).0[i] == c[i]
    ensures |ReadCommitment(c).1| == 1 && ReadCommitment(c).1[0] == c[16]
    ensures forall i :: 0 <= i < 32 ==> ReadCommitment(c).2[i] == c[17 + i]
  {}
}
