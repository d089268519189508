/** The Toeplitz product: 32-bit windows over the diagonal words against one row of bits. */
module Toeplitz {
  import opened Bits

  /** __builtin_parity: whether the number of one bits is odd. */
  function Parity(s: Bits): bool {
    if s == [] then false else Parity(s[..|s| - 1]) != s[|s| - 1]
  }

  lemma {:induction false} ParityXor(a: Bits, b: Bits)
    requires |a| == |b|
    ensures Parity(XorBits(a, b)) == (Parity(a) != Parity(b))
  {
    if a != [] {
      var n := |a| - 1;
      ParityXor(a[..n], b[..n]);
      assert XorBits(a, b)[..n] == XorBits(a[..n], b[..n]);
    }
  }

  /** toeplitz_load_window32: the 64-bit lane of two adjacent words, shifted right and truncated. */
  function Window(A: seq<Word>, idx: nat, shift: nat): Word
    requires idx + 1 < |A| && shift < 32
  {
    Slice32(A[idx], A[idx + 1], shift)
  }

  function Slice32(lo: Bits, hi: Bits, shift: nat): Bits
    requires |lo| == |hi| == 32 && shift < 32
  {
    (lo + hi)[shift..shift + 32]
  }

  lemma WindowBit(A: seq<Word>, idx: nat, shift: nat, b: nat)
    requires idx + 1 < |A| && shift < 32 && b < 32
    ensures Window(A, idx, shift)[b] == BitOf(A, 32 * idx + shift + b)
  {
    var j := 32 * idx + shift + b;
    if shift + b < 32 {
      assert j / 32 == idx && j % 32 == shift + b;
    } else {
      assert j / 32 == idx + 1 && j % 32 == shift + b - 32;
    }
  }

  /** The bitwise row product: the XOR over j < n of diagonal bit start + j and bit j of r. */
  function RowSum(A: seq<Word>, r: seq<Word>, start: nat, n: nat): bool
    requires n <= 32 * |r| && start + n <= 32 * |A|
  {
    if n == 0 then false
    else RowSum(A, r, start, n - 1) != (BitOf(A, start + n - 1) && BitOf(r, n - 1))
  }

  lemma {:induction false} RowSumWord(A: seq<Word>, r: seq<Word>, start: nat, j: nat, w: Word, b: nat)
    requires b <= 32 && j < |r| && start + 32 * j + 32 <= 32 * |A|
    requires forall i :: 0 <= i < 32 ==> w[i] == (BitOf(A, start + 32 * j + i) && r[j][i])
    ensures RowSum(A, r, start, 32 * j + b) == (RowSum(A, r, start, 32 * j) != Parity(w[..b]))
  {
    if b > 0 {
      RowSumWord(A, r, start, j, w, b - 1);
      assert w[..b][..b - 1] == w[..b - 1];
      var k := 32 * j + b - 1;
      assert k / 32 == j && k % 32 == b - 1;
    }
  }

  lemma MaskedWindowBit(A: seq<Word>, rj: Word, start: nat, j: nat, i: nat)
    requires start / 32 + j + 1 < |A| && i < 32
    ensures start + 32 * j + i < 32 * |A|
    ensures And(Window(A, start / 32 + j, start % 32), rj)[i] == (BitOf(A, start + 32 * j + i) && rj[i])
  {
    hide Window, BitOf;
    WindowBit(A, start / 32 + j, start % 32, i);
    assert 32 * (start / 32 + j) + start % 32 + i == start + 32 * j + i;
  }

  /** One step of the loop of row_product: word j of r against its window. */
  lemma RowSumStep(A: seq<Word>, r: seq<Word>, start: nat, j: nat, acc: Word, next: Word)
    requires j < |r| && start / 32 + j + 1 < |A|
    requires next == Xor(acc, And(Window(A, start / 32 + j, start % 32), r[j]))
    requires Parity(acc) == RowSum(A, r, start, 32 * j)
    ensures Parity(next) == RowSum(A, r, start, 32 * (j + 1))
  {
    hide Window, BitOf, Parity, RowSum, And;
    var w := And(Window(A, start / 32 + j, start % 32), r[j]);
    forall i | 0 <= i < 32
      ensures w[i] == (BitOf(A, start + 32 * j + i) && r[j][i])
    {
      MaskedWindowBit(A, r[j], start, j, i);
    }
    RowSumWord(A, r, start, j, w, 32);
    assert w[..32] == w;
    ParityXor(acc, w);
  }

  /** row_product. The windows read words start/32 up to start/32 + |r|. */
  method RowProduct(A: seq<Word>, r: seq<Word>, start: nat) returns (bit: bool)
    requires start / 32 + |r| < |A|
    ensures bit == RowSum(A, r, start, 32 * |r|)
  {
    var acc: Word := ZERO;
    ParityZeros(32);
    var j := 0;
    while j < |r|
      invariant 0 <= j <= |r|
      invariant Parity(acc) == RowSum(A, r, start, 32 * j)
    {
      var next := Xor(acc, And(Window(A, start / 32 + j, start % 32), r[j]));
      RowSumStep(A, r, start, j, acc, next);
      acc := next;
      j := j + 1;
    }
    bit := Parity(acc);
  }

  lemma {:induction false} ParityZeros(n: nat)
    ensures !Parity(Zeros(n))
  {
    if n > 0 {
      ParityZeros(n - 1);
      assert Zeros(n)[..n - 1] == Zeros(n - 1);
    }
  }

  // ----- only the bits that count

  /** Bits of r past l contribute nothing when they are zero, whatever the diagonals there. */
  lemma {:induction false} RowSumPadding(A: seq<Word>, r: seq<Word>, start: nat, l: nat, n: nat)
    requires l <= n <= 32 * |r| && start + n <= 32 * |A|
    requires forall j :: l <= j < n ==> !BitOf(r, j)
    ensures RowSum(A, r, start, n) == RowSum(A, r, start, l)
  {
    if n > l { RowSumPadding(A, r, start, l, n - 1); }
  }

  /** The product depends only on the diagonal bits under the row and on the bits of r. */
  lemma {:induction false} RowSumDepends(A: seq<Word>, B: seq<Word>, r: seq<Word>, q: seq<Word>, start: nat, n: nat)
    requires n <= 32 * |r| && n <= 32 * |q| && start + n <= 32 * |A| && start + n <= 32 * |B|
    requires forall j :: start <= j < start + n ==> BitOf(A, j) == BitOf(B, j)
    requires forall j :: 0 <= j < n ==> BitOf(r, j) == BitOf(q, j)
    ensures RowSum(A, r, start, n) == RowSum(B, q, start, n)
  {
    if n > 0 { RowSumDepends(A, B, r, q, start, n - 1); }
  }

  function XorWords(a: seq<Word>, b: seq<Word>): (r: seq<Word>)
    requires |a| == |b|
    ensures |r| == |a|
    ensures forall i :: 0 <= i < |a| ==> r[i] == Xor(a[i], b[i])
  {
    seq(|a|, i requires 0 <= i < |a| => Xor(a[i], b[i]))
  }

  lemma XorWordsBit(a: seq<Word>, b: seq<Word>, j: nat)
    requires |a| == |b| && j < 32 * |a|
    ensures BitOf(XorWords(a, b), j) == (BitOf(a, j) != BitOf(b, j))
  {}

  /** The row product is linear in r. */
  lemma {:induction false} RowSumLinear(A: seq<Word>, a: seq<Word>, b: seq<Word>, start: nat, n: nat)
    requires |a| == |b| && n <= 32 * |a| && start + n <= 32 * |A|
    ensures RowSum(A, XorWords(a, b), start, n) == (RowSum(A, a, start, n) != RowSum(A, b, start, n))
  {
    if n > 0 {
      RowSumLinear(A, a, b, start, n - 1);
      XorWordsBit(a, b, n - 1);
    }
  }
}
