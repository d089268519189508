/** Machine words and bytes as bit strings, least significant bit first.
    A little-endian view of memory is then plain concatenation. */
module Bits {

  type Bits = seq<bool>
  type Word = w: Bits | |w| == 32 witness seq(32, _ => false)
  type Byte = b: Bits | |b| == 8 witness seq(8, _ => false)

  /** One value per MPC party. */
  datatype Triple<T> = Triple(p0: T, p1: T, p2: T) {
    function At(i: nat): T {
      if i % 3 == 0 then p0 else if i % 3 == 1 then p1 else p2
    }
  }

  /** The values of two neighbouring parties e and e+1. */
  datatype Pair<T> = Pair(own: T, next: T)

  function Zeros(n: nat): (z: Bits)
    ensures |z| == n && forall i :: 0 <= i < n ==> !z[i]
  {
    seq(n, _ => false)
  }

  const ZERO: Word := Zeros(32)

  function XorBits(a: Bits, b: Bits): (r: Bits)
    requires |a| == |b|
    ensures |r| == |a| && forall i :: 0 <= i < |a| ==> r[i] == (a[i] != b[i])
  {
    seq(|a|, i requires 0 <= i < |a| => a[i] != b[i])
  }

  function AndBits(a: Bits, b: Bits): (r: Bits)
    requires |a| == |b|
    ensures |r| == |a| && forall i :: 0 <= i < |a| ==> r[i] == (a[i] && b[i])
  {
    seq(|a|, i requires 0 <= i < |a| => a[i] && b[i])
  }

  function Xor(a: Word, b: Word): Word { XorBits(a, b) }

  function And(a: Word, b: Word): Word { AndBits(a, b) }

  function Not(a: Word): (r: Word)
    ensures forall i :: 0 <= i < 32 ==> r[i] == !a[i]
  {
    seq(32, i requires 0 <= i < 32 => !a[i])
  }

  /** (x >> n) | (x << (32 - n)) */
  function Rotr(x: Word, n: nat): (r: Word)
    ensures forall i :: 0 <= i < 32 ==> r[i] == x[(i + n) % 32]
  {
    seq(32, i requires 0 <= i < 32 => x[(i + n) % 32])
  }

  function Shr(x: Word, n: nat): (r: Word)
    ensures forall i :: 0 <= i < 32 ==> r[i] == (i + n < 32 && x[i + n])
  {
    seq(32, i requires 0 <= i < 32 => i + n < 32 && x[i + n])
  }

  function Xor3(t: Triple<Word>): (r: Word)
    ensures forall i :: 0 <= i < 32 ==> r[i] == ((t.p0[i] != t.p1[i]) != t.p2[i])
  {
    Xor(Xor(t.p0, t.p1), t.p2)
  }

  /** Bit j of an array of words read as one bit string. */
  function BitOf(w: seq<Word>, j: nat): bool
    requires j < 32 * |w|
  {
    w[j / 32][j % 32]
  }

  // ----- unsigned value and addition modulo 2^32

  function BitVal(b: bool): nat { if b then 1 else 0 }

  function Pow2(n: nat): (p: nat)
    ensures p > 0
  {
    if n == 0 then 1 else 2 * Pow2(n - 1)
  }

  function Val(s: Bits): nat {
    if s == [] then 0 else BitVal(s[0]) + 2 * Val(s[1..])
  }

  function FromNat(n: nat, len: nat): (s: Bits)
    ensures |s| == len
  {
    if len == 0 then [] else [n % 2 == 1] + FromNat(n / 2, len - 1)
  }

  /** Addition of two words and a carry-in, modulo 2^32. */
  function AddCarry(x: Word, y: Word, carryIn: bool): Word {
    FromNat((Val(x) + Val(y) + BitVal(carryIn)) % 0x1_0000_0000, 32)
  }

  function Add(x: Word, y: Word): Word {
    FromNat((Val(x) + Val(y)) % 0x1_0000_0000, 32)
  }

  lemma AddIsAddCarry(x: Word, y: Word)
    ensures Add(x, y) == AddCarry(x, y, false)
  {}

  lemma {:induction false} ValBound(s: Bits)
    ensures Val(s) < Pow2(|s|)
  {
    if s != [] { ValBound(s[1..]); }
  }

  lemma {:induction false} FromNatVal(s: Bits)
    ensures FromNat(Val(s), |s|) == s
  {
    if s != [] {
      FromNatVal(s[1..]);
      assert Val(s) % 2 == BitVal(s[0]) && Val(s) / 2 == Val(s[1..]);
      assert s == [s[0]] + s[1..];
    }
  }

  lemma {:induction false} ValFromNat(n: nat, len: nat)
    requires n < Pow2(len)
    ensures Val(FromNat(n, len)) == n
  {
    if len > 0 {
      ValFromNat(n / 2, len - 1);
      var s := FromNat(n, len);
      assert s[1..] == FromNat(n / 2, len - 1);
    }
  }

  lemma Pow2Of32()
    ensures Pow2(32) == 0x1_0000_0000
  {
    assert Pow2(8) == 256;
    assert Pow2(16) == 65536;
    assert Pow2(24) == 16777216;
  }

  lemma ValAdd(x: Word, y: Word)
    ensures Val(Add(x, y)) == (Val(x) + Val(y)) % 0x1_0000_0000
  {
    Pow2Of32();
    ValFromNat((Val(x) + Val(y)) % 0x1_0000_0000, 32);
  }

  lemma ModSum(a: nat, b: nat)
    ensures (a % 0x1_0000_0000 + b) % 0x1_0000_0000 == (a + b) % 0x1_0000_0000
  {}

  lemma ModUnique(z: nat, sum: nat)
    requires z < 0x1_0000_0000 && (z == sum || z + 0x1_0000_0000 == sum)
    ensures z == sum % 0x1_0000_0000
  {}

  lemma AddCommutes(x: Word, y: Word)
    ensures Add(x, y) == Add(y, x)
  {}

  lemma AddAssociates(x: Word, y: Word, z: Word)
    ensures Add(Add(x, y), z) == Add(x, Add(y, z))
  {
    ValAdd(x, y);
    ValAdd(y, z);
    ModSum(Val(x) + Val(y), Val(z));
    ModSum(Val(y) + Val(z), Val(x));
  }

  // ----- ripple-carry addition

  function Majority(a: bool, b: bool, c: bool): bool {
    (a && b) || (a && c) || (b && c)
  }

  /** c[0] is the carry-in and every later bit of c is the carry out of the bit below. */
  ghost predicate RippleCarry(x: Bits, y: Bits, c: Bits)
    requires |x| == |y| && |c| >= |x|
  {
    forall i :: 0 <= i < |x| - 1 ==> c[i + 1] == Majority(x[i], y[i], c[i])
  }

  /** The sum of two words from their bits and carries, without the final carry-out. */
  function RippleSum(x: Bits, y: Bits, c: Bits): (z: Bits)
    requires |x| == |y| == |c|
    ensures |z| == |x|
  {
    XorBits(XorBits(x, y), c)
  }

  lemma RippleSumTail(x: Bits, y: Bits, c: Bits)
    requires |x| == |y| == |c| > 0
    ensures RippleSum(x, y, c) == [(x[0] != y[0]) != c[0]] + RippleSum(x[1..], y[1..], c[1..])
  {}

  /** x ^ y ^ c, for the carries c, adds x, y and the carry-in. */
  lemma {:induction false} RippleValue(x: Bits, y: Bits, c: Bits)
    requires |x| == |y| == |c| > 0 && RippleCarry(x, y, c)
    ensures Val(RippleSum(x, y, c)) + CarryOut(x, y, c) == Val(x) + Val(y) + BitVal(c[0])
  {
    if |x| == 1 {
      RippleBit(x, y, c);
    } else {
      RippleTail(x, y, c);
      RippleValue(x[1..], y[1..], c[1..]);
      RippleStep(x, y, c);
    }
  }

  lemma RippleBit(x: Bits, y: Bits, c: Bits)
    requires |x| == |y| == |c| == 1
    ensures Val(RippleSum(x, y, c)) + CarryOut(x, y, c) == Val(x) + Val(y) + BitVal(c[0])
  {
    var z := RippleSum(x, y, c);
    assert z[0] == ((x[0] != y[0]) != c[0]);
    assert Val(z[1..]) == Val(x[1..]) == Val(y[1..]) == 0;
    assert Pow2(1) == 2;
  }

  /** One more low bit, once the rest is known to add up. */
  lemma RippleStep(x: Bits, y: Bits, c: Bits)
    requires |x| == |y| == |c| > 1
    requires Val(RippleSum(x[1..], y[1..], c[1..])) + CarryOut(x[1..], y[1..], c[1..])
          == Val(x[1..]) + Val(y[1..]) + BitVal(c[1])
    requires CarryOut(x, y, c) == 2 * CarryOut(x[1..], y[1..], c[1..]) && c[1] == Majority(x[0], y[0], c[0])
    ensures Val(RippleSum(x, y, c)) + CarryOut(x, y, c) == Val(x) + Val(y) + BitVal(c[0])
  {
    hide CarryOut, RippleSum;
    RippleSumTail(x, y, c);
    var z := RippleSum(x, y, c);
    assert z[0] == ((x[0] != y[0]) != c[0]) && z[1..] == RippleSum(x[1..], y[1..], c[1..]);
  }

  function CarryOut(x: Bits, y: Bits, c: Bits): nat
    requires |x| == |y| == |c| > 0
  {
    var n := |x| - 1;
    if Majority(x[n], y[n], c[n]) then Pow2(n + 1) else 0
  }

  lemma RippleTail(x: Bits, y: Bits, c: Bits)
    requires |x| == |y| == |c| > 1 && RippleCarry(x, y, c)
    ensures RippleCarry(x[1..], y[1..], c[1..])
    ensures CarryOut(x, y, c) == 2 * CarryOut(x[1..], y[1..], c[1..])
    ensures c[1] == Majority(x[0], y[0], c[0])
  {
    forall i | 0 <= i < |x| - 2
      ensures c[1..][i + 1] == Majority(x[1..][i], y[1..][i], c[1..][i])
    {
      assert c[(i + 1) + 1] == Majority(x[i + 1], y[i + 1], c[i + 1]);
    }
    assert c[0 + 1] == Majority(x[0], y[0], c[0]);
  }

  lemma RippleAdds(x: Word, y: Word, c: Word)
    requires RippleCarry(x, y, c)
    ensures Xor(Xor(x, y), c) == AddCarry(x, y, c[0])
  {
    hide FromNat;
    hide Val;
    var z := Xor(Xor(x, y), c);
    assert z == RippleSum(x, y, c);
    RippleValue(x, y, c);
    Pow2Of32();
    ValBound(z);
    ModUnique(Val(z), Val(x) + Val(y) + BitVal(c[0]));
    FromNatVal(z);
  }
}
