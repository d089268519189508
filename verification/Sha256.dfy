/** SHA-256 as FIPS 180-4 defines it, on bit strings of any length. */
module Sha256 {
  import opened Bits

  /** The eight working variables, or the eight words of the hash value. */
  datatype Vars<V> = Vars(a: V, b: V, c: V, d: V, e: V, f: V, g: V, h: V)

  /** Section 4.2.2, eight constants to a row. */
  function ConstantRow(r: nat): (row: seq<nat>)
    requires r < 8
    ensures |row| == 8
  {
    match r
    case 0 => [0x428a2f98, 0x71374491, 0xb5c0fbcf, 0xe9b5dba5, 0x3956c25b, 0x59f111f1, 0x923f82a4, 0xab1c5ed5]
    case 1 => [0xd807aa98, 0x12835b01, 0x243185be, 0x550c7dc3, 0x72be5d74, 0x80deb1fe, 0x9bdc06a7, 0xc19bf174]
    case 2 => [0xe49b69c1, 0xefbe4786, 0x0fc19dc6, 0x240ca1cc, 0x2de92c6f, 0x4a7484aa, 0x5cb0a9dc, 0x76f988da]
    case 3 => [0x983e5152, 0xa831c66d, 0xb00327c8, 0xbf597fc7, 0xc6e00bf3, 0xd5a79147, 0x06ca6351, 0x14292967]
    case 4 => [0x27b70a85, 0x2e1b2138, 0x4d2c6dfc, 0x53380d13, 0x650a7354, 0x766a0abb, 0x81c2c92e, 0x92722c85]
    case 5 => [0xa2bfe8a1, 0xa81a664b, 0xc24b8b70, 0xc76c51a3, 0xd192e819, 0xd6990624, 0xf40e3585, 0x106aa070]
    case 6 => [0x19a4c116, 0x1e376c08, 0x2748774c, 0x34b0bcb5, 0x391c0cb3, 0x4ed8aa4a, 0x5b9cca4f, 0x682e6ff3]
    case _ => [0x748f82ee, 0x78a5636f, 0x84c87814, 0x8cc70208, 0x90befffa, 0xa4506ceb, 0xbef9a3f7, 0xc67178f2]
  }

  function RoundConstants(): (w: seq<Word>)
    ensures |w| == 64
  {
    seq(64, i requires 0 <= i < 64 => FromNat(ConstantRow(i / 8)[i % 8], 32))
  }

  const K: seq<Word> := RoundConstants()

  /** Section 5.3.3. */
  const INITIAL_HASH: Vars<nat> := Vars(0x6a09e667, 0xbb67ae85, 0x3c6ef372, 0xa54ff53a,
                                        0x510e527f, 0x9b05688c, 0x1f83d9ab, 0x5be0cd19)

  const H0: Vars<Word> := InitialHash(INITIAL_HASH)

  function InitialHash(n: Vars<nat>): Vars<Word> {
    Vars(FromNat(n.a, 32), FromNat(n.b, 32), FromNat(n.c, 32), FromNat(n.d, 32),
         FromNat(n.e, 32), FromNat(n.f, 32), FromNat(n.g, 32), FromNat(n.h, 32))
  }

  // ----- section 4.1.2

  function Ch(x: Word, y: Word, z: Word): Word { Xor(And(x, y), And(Not(x), z)) }

  function Maj(x: Word, y: Word, z: Word): Word { Xor(Xor(And(x, y), And(x, z)), And(y, z)) }

  function BigSigma0(x: Word): Word { Xor(Xor(Rotr(x, 2), Rotr(x, 13)), Rotr(x, 22)) }

  function BigSigma1(x: Word): Word { Xor(Xor(Rotr(x, 6), Rotr(x, 11)), Rotr(x, 25)) }

  function SmallSigma0(x: Word): Word { Xor(Xor(Rotr(x, 7), Rotr(x, 18)), Shr(x, 3)) }

  function SmallSigma1(x: Word): Word { Xor(Xor(Rotr(x, 17), Rotr(x, 19)), Shr(x, 10)) }

  // ----- section 6.2.2

  function ScheduleWord(m: seq<Word>, t: nat): Word
    requires |m| == 16
  {
    if t < 16 then m[t]
    else Add(Add(Add(SmallSigma1(ScheduleWord(m, t - 2)), ScheduleWord(m, t - 7)),
                 SmallSigma0(ScheduleWord(m, t - 15))), ScheduleWord(m, t - 16))
  }

  function Round(v: Vars<Word>, k: Word, w: Word): Vars<Word> {
    var t1 := Add(Add(Add(Add(v.h, BigSigma1(v.e)), Ch(v.e, v.f, v.g)), k), w);
    var t2 := Add(BigSigma0(v.a), Maj(v.a, v.b, v.c));
    Vars(Add(t1, t2), v.a, v.b, v.c, Add(v.d, t1), v.e, v.f, v.g)
  }

  function Rounds(v: Vars<Word>, k: seq<Word>, m: seq<Word>, n: nat): Vars<Word>
    requires |m| == 16 && n <= |k|
  {
    if n == 0 then v else Round(Rounds(v, k, m, n - 1), k[n - 1], ScheduleWord(m, n - 1))
  }

  function Compress(h: Vars<Word>, k: seq<Word>, m: seq<Word>): Vars<Word>
    requires |m| == 16 && |k| == 64
  {
    var v := Rounds(h, k, m, 64);
    Vars(Add(v.a, h.a), Add(v.b, h.b), Add(v.c, h.c), Add(v.d, h.d),
         Add(v.e, h.e), Add(v.f, h.f), Add(v.g, h.g), Add(v.h, h.h))
  }

  /** The hash value after the first n blocks. */
  function HashBlocks(h: Vars<Word>, k: seq<Word>, blocks: seq<seq<Word>>, n: nat): Vars<Word>
    requires n <= |blocks| && |k| == 64 && forall i :: 0 <= i < |blocks| ==> |blocks[i]| == 16
  {
    if n == 0 then h else Compress(HashBlocks(h, k, blocks, n - 1), k, blocks[n - 1])
  }

  // ----- section 5.1.1 and 5.2.1; bit strings are written most significant bit first

  function Reverse(s: Bits): (r: Bits)
    ensures |r| == |s| && forall i :: 0 <= i < |s| ==> r[i] == s[|s| - 1 - i]
  {
    seq(|s|, i requires 0 <= i < |s| => s[|s| - 1 - i])
  }

  /** The smallest k >= 0 with l + 1 + k = 448 modulo 512. */
  function PadZeros(l: nat): (k: nat)
    ensures (l + 1 + k) % 512 == 448 && k < 512
  {
    (447 - l) % 512
  }

  function Pad(m: Bits): (p: Bits)
    ensures |p| % 512 == 0
  {
    m + [true] + Zeros(PadZeros(|m|)) + Reverse(FromNat(|m|, 64))
  }

  function Parse(p: Bits): (b: seq<seq<Word>>)
    requires |p| % 512 == 0
    ensures |b| == |p| / 512 && forall i :: 0 <= i < |b| ==> |b[i]| == 16
  {
    seq(|p| / 512, i requires 0 <= i < |p| / 512 => ParseBlock(p[512 * i..512 * i + 512]))
  }

  function ParseBlock(b: Bits): (m: seq<Word>)
    requires |b| == 512
    ensures |m| == 16
  {
    seq(16, j requires 0 <= j < 16 => Reverse(b[32 * j..32 * j + 32]))
  }

  function Hash(m: Bits): Vars<Word> {
    var blocks := Parse(Pad(m));
    HashBlocks(H0, K, blocks, |blocks|)
  }

  // ----- byte strings

  /** The bit string of a byte string: each byte most significant bit first. */
  function BitString(b: seq<Byte>): (m: Bits)
    ensures |m| == 8 * |b| && forall i :: 0 <= i < 8 * |b| ==> m[i] == b[i / 8][7 - i % 8]
  {
    seq(8 * |b|, i requires 0 <= i < 8 * |b| => b[i / 8][7 - i % 8])
  }

  /** Byte i of a word in memory. */
  function ByteOf(w: Word, i: nat): Byte
    requires i < 4
  {
    w[8 * i..8 * i + 8]
  }

  /** Four bytes of a word, most significant byte first. */
  function StoreBE(w: Word): (b: seq<Byte>)
    ensures |b| == 4
  {
    [ByteOf(w, 3), ByteOf(w, 2), ByteOf(w, 1), ByteOf(w, 0)]
  }

  function Join(b0: Bits, b1: Bits, b2: Bits, b3: Bits): Bits { b0 + b1 + b2 + b3 }

  function LoadBE(b: seq<Byte>): Word
    requires |b| == 4
  {
    Join(b[3], b[2], b[1], b[0])
  }

  function WordsOf(v: Vars<Word>): (s: seq<Word>)
    ensures |s| == 8
  {
    [v.a, v.b, v.c, v.d, v.e, v.f, v.g, v.h]
  }

  type Digest = d: seq<Byte> | |d| == 32 witness seq(32, _ => seq(8, _ => false))

  function DigestBytes(v: Vars<Word>): Digest {
    seq(32, i requires 0 <= i < 32 => StoreBE(WordsOf(v)[i / 4])[i % 4])
  }

  /** SHA-256 of a byte string, as 32 bytes. */
  function Sum(b: seq<Byte>): Digest { DigestBytes(Hash(BitString(b))) }

  /** The rotations and shifts of section 4.1.2, bit by bit. */
  lemma SigmaBits(x: Word, i: nat)
    requires i < 32
    ensures BigSigma0(x)[i] == ((x[(i + 2) % 32] != x[(i + 13) % 32]) != x[(i + 22) % 32])
    ensures BigSigma1(x)[i] == ((x[(i + 6) % 32] != x[(i + 11) % 32]) != x[(i + 25) % 32])
    ensures SmallSigma0(x)[i] == ((x[(i + 7) % 32] != x[(i + 18) % 32]) != (i < 29 && x[i + 3]))
    ensures SmallSigma1(x)[i] == ((x[(i + 17) % 32] != x[(i + 19) % 32]) != (i < 22 && x[i + 10]))
  {}

  /** The digest is the eight words in order, each most significant byte first. */
  lemma DigestOrder(v: Vars<Word>)
    ensures DigestBytes(v)[0..4] == StoreBE(v.a) && DigestBytes(v)[4..8] == StoreBE(v.b)
    ensures DigestBytes(v)[8..12] == StoreBE(v.c) && DigestBytes(v)[12..16] == StoreBE(v.d)
    ensures DigestBytes(v)[16..20] == StoreBE(v.e) && DigestBytes(v)[20..24] == StoreBE(v.f)
    ensures DigestBytes(v)[24..28] == StoreBE(v.g) && DigestBytes(v)[28..32] == StoreBE(v.h)
  {
    hide StoreBE;
  }
}
