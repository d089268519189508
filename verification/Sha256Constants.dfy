/** What the constants of SHA-256 are: fractional parts of roots of the first primes, as sections 4.2.2
    and 5.3.3 of FIPS 180-4 define them. */
module Sha256Constants {
  import opened Bits
  import Sha256

  // ----- the first primes

  function Times(a: nat, b: nat): nat { a * b }

  ghost predicate IsPrime(n: nat) {
    n >= 2 && forall a, b :: 2 <= a < n && 2 <= b < n ==> Times(a, b) != n
  }

  /** How many primes are below n. */
  ghost function PrimesBelow(n: nat): nat {
    if n == 0 then 0 else PrimesBelow(n - 1) + (if IsPrime(n - 1) then 1 else 0)
  }

  ghost predicate IsNthPrime(i: nat, p: nat) { IsPrime(p) && PrimesBelow(p) == i }

  /** d does not divide n, other than as n itself. */
  predicate Clear(n: nat, d: nat)
    requires d > 0
  {
    n % d != 0 || n == d
  }

  /** No prime up to 17 divides n, other than n itself. */
  predicate Sieved(n: nat) {
    && n >= 2 && Clear(n, 2) && Clear(n, 3) && Clear(n, 5) && Clear(n, 7) && Clear(n, 11) && Clear(n, 13)
    && Clear(n, 17)
  }

  lemma LargeProduct(a: nat, b: nat)
    requires a >= 18 && b >= 18
    ensures a * b >= 324
  {}

  lemma Composite(n: nat, a: nat, b: nat)
    requires 2 <= a <= 17 && 2 <= b && a * b == n
    ensures !Sieved(n)
  {
    hide Clear;
    if a % 2 == 0 {
      assert n == 2 * (a / 2 * b) by { Regroup(2, a / 2, b); }
      Twice(n, a / 2 * b);
    } else if a % 3 == 0 {
      assert n == 3 * (a / 3 * b) by { Regroup(3, a / 3, b); }
      Thrice(n, a / 3 * b);
    } else if a == 5 { Fivefold(n, b); } else if a == 7 { Sevenfold(n, b); } else if a == 11 { Elevenfold(n, b); }
    else if a == 13 { Thirteenfold(n, b); } else { Seventeenfold(n, b); }
  }

  lemma Regroup(d: nat, c: nat, b: nat)
    requires c >= 1 && b >= 2
    ensures d * c * b == d * (c * b) && c * b >= 2
  {}

  lemma Twice(n: nat, k: nat)
    requires n == 2 * k && k > 1
    ensures !Clear(n, 2)
  {}

  lemma Thrice(n: nat, k: nat)
    requires n == 3 * k && k > 1
    ensures !Clear(n, 3)
  {}

  lemma Fivefold(n: nat, k: nat)
    requires n == 5 * k && k > 1
    ensures !Clear(n, 5)
  {}

  lemma Sevenfold(n: nat, k: nat)
    requires n == 7 * k && k > 1
    ensures !Clear(n, 7)
  {}

  lemma Elevenfold(n: nat, k: nat)
    requires n == 11 * k && k > 1
    ensures !Clear(n, 11)
  {}

  lemma Thirteenfold(n: nat, k: nat)
    requires n == 13 * k && k > 1
    ensures !Clear(n, 13)
  {}

  lemma Seventeenfold(n: nat, k: nat)
    requires n == 17 * k && k > 1
    ensures !Clear(n, 17)
  {}

  /** Below 18 squared, sieving with the primes up to 17 decides primality. */
  lemma SievedExact(n: nat)
    requires n < 324
    ensures IsPrime(n) <==> Sieved(n)
  {
    if IsPrime(n) { PrimeIsSieved(n); }
    if Sieved(n) {
      forall a, b | 2 <= a < n && 2 <= b < n ensures Times(a, b) != n {
        if a * b == n {
          if a <= 17 { Composite(n, a, b); } else if b <= 17 { Composite(n, b, a); } else { LargeProduct(a, b); }
        }
      }
    }
  }

  lemma PrimeIsSieved(n: nat)
    requires IsPrime(n)
    ensures Sieved(n)
  {
    NotMultiple(n, 2);
    NotMultiple(n, 3);
    NotMultiple(n, 5);
    NotMultiple(n, 7);
    NotMultiple(n, 11);
    NotMultiple(n, 13);
    NotMultiple(n, 17);
  }

  lemma NotMultiple(n: nat, d: nat)
    requires IsPrime(n) && 2 <= d
    ensures Clear(n, d)
  {
    if n % d == 0 && n != d {
      Cofactor(n, d, n / d);
    }
  }

  lemma Cofactor(n: nat, d: nat, c: nat)
    requires n >= 2 && n == d * c && d >= 2 && n != d
    ensures 2 <= c < n && d < n && Times(d, c) == n
  {}

  /** No number from p up to q is sieved. */
  predicate Barren(p: nat, q: nat)
    decreases q - p
  {
    p >= q || (!Sieved(p) && Barren(p + 1, q))
  }

  lemma {:induction false} NoPrimes(p: nat, q: nat)
    requires p <= q < 324 && Barren(p, q)
    ensures PrimesBelow(q) == PrimesBelow(p)
    decreases q - p
  {
    hide IsPrime, Sieved;
    if p < q {
      SievedExact(p);
      assert PrimesBelow(p + 1) == PrimesBelow(p);
      NoPrimes(p + 1, q);
    }
  }

  /** q is the next prime after p. */
  predicate Gap(p: nat, q: nat) { p < q < 324 && Sieved(q) && Barren(p + 1, q) }

  lemma GapFrom(p: nat, next: nat, q: nat)
    requires next == p + 1 && p < q < 324 && Sieved(q) && Barren(next, q)
    ensures Gap(p, q)
  {}

  lemma NextPrime(i: nat, p: nat, q: nat)
    requires IsNthPrime(i, p) && Gap(p, q)
    ensures IsNthPrime(i + 1, q)
  {
    hide IsPrime, Sieved, Barren;
    NoPrimes(p + 1, q);
    SievedExact(q);
  }

  /** The first 64 primes. */
  function PrimeRow(r: nat): (row: seq<nat>)
    requires r < 8
    ensures |row| == 8
  {
    match r
    case 0 => [2, 3, 5, 7, 11, 13, 17, 19]
    case 1 => [23, 29, 31, 37, 41, 43, 47, 53]
    case 2 => [59, 61, 67, 71, 73, 79, 83, 89]
    case 3 => [97, 101, 103, 107, 109, 113, 127, 131]
    case 4 => [137, 139, 149, 151, 157, 163, 167, 173]
    case 5 => [179, 181, 191, 193, 197, 199, 211, 223]
    case 6 => [227, 229, 233, 239, 241, 251, 257, 263]
    case _ => [269, 271, 277, 281, 283, 293, 307, 311]
  }

  function Prime(i: nat): nat
    requires i < 64
  {
    PrimeRow(i / 8)[i % 8]
  }

  lemma Gaps0()
    ensures forall j :: 1 <= j < 8 ==> Gap(PrimeRow(0)[j - 1], PrimeRow(0)[j])
  {
    hide Gap;
    assert Gap(2, 3) by { GapFrom(2, 3, 3); }
    assert Gap(3, 5) by { GapFrom(3, 4, 5); }
    assert Gap(5, 7) by { GapFrom(5, 6, 7); }
    assert Gap(7, 11) by { GapFrom(7, 8, 11); }
    assert Gap(11, 13) by { GapFrom(11, 12, 13); }
    assert Gap(13, 17) by { GapFrom(13, 14, 17); }
    assert Gap(17, 19) by { GapFrom(17, 18, 19); }
  }

  lemma Gaps1()
    ensures Gap(PrimeRow(0)[7], PrimeRow(1)[0])
    ensures forall j :: 1 <= j < 8 ==> Gap(PrimeRow(1)[j - 1], PrimeRow(1)[j])
  {
    hide Gap;
    assert Gap(19, 23) by { GapFrom(19, 20, 23); }
    assert Gap(23, 29) by { GapFrom(23, 24, 29); }
    assert Gap(29, 31) by { GapFrom(29, 30, 31); }
    assert Gap(31, 37) by { GapFrom(31, 32, 37); }
    assert Gap(37, 41) by { GapFrom(37, 38, 41); }
    assert Gap(41, 43) by { GapFrom(41, 42, 43); }
    assert Gap(43, 47) by { GapFrom(43, 44, 47); }
    assert Gap(47, 53) by { GapFrom(47, 48, 53); }
  }

  lemma Gaps2()
    ensures Gap(PrimeRow(1)[7], PrimeRow(2)[0])
    ensures forall j :: 1 <= j < 8 ==> Gap(PrimeRow(2)[j - 1], PrimeRow(2)[j])
  {
    hide Gap;
    assert Gap(53, 59) by { GapFrom(53, 54, 59); }
    assert Gap(59, 61) by { GapFrom(59, 60, 61); }
    assert Gap(61, 67) by { GapFrom(61, 62, 67); }
    assert Gap(67, 71) by { GapFrom(67, 68, 71); }
    assert Gap(71, 73) by { GapFrom(71, 72, 73); }
    assert Gap(73, 79) by { GapFrom(73, 74, 79); }
    assert Gap(79, 83) by { GapFrom(79, 80, 83); }
    assert Gap(83, 89) by { GapFrom(83, 84, 89); }
  }

  lemma Gaps3()
    ensures Gap(PrimeRow(2)[7], PrimeRow(3)[0])
    ensures forall j :: 1 <= j < 8 ==> Gap(PrimeRow(3)[j - 1], PrimeRow(3)[j])
  {
    hide Gap;
    assert Gap(89, 97) by { GapFrom(89, 90, 97); }
    assert Gap(97, 101) by { GapFrom(97, 98, 101); }
    assert Gap(101, 103) by { GapFrom(101, 102, 103); }
    assert Gap(103, 107) by { GapFrom(103, 104, 107); }
    assert Gap(107, 109) by { GapFrom(107, 108, 109); }
    assert Gap(109, 113) by { GapFrom(109, 110, 113); }
    assert Gap(113, 127) by {
      assert Barren(121, 127);
      GapFrom(113, 114, 127);
    }
    assert Gap(127, 131) by { GapFrom(127, 128, 131); }
  }

  lemma Gaps4()
    ensures Gap(PrimeRow(3)[7], PrimeRow(4)[0])
    ensures forall j :: 1 <= j < 8 ==> Gap(PrimeRow(4)[j - 1], PrimeRow(4)[j])
  {
    hide Gap;
    assert Gap(131, 137) by { GapFrom(131, 132, 137); }
    assert Gap(137, 139) by { GapFrom(137, 138, 139); }
    assert Gap(139, 149) by { GapFrom(139, 140, 149); }
    assert Gap(149, 151) by { GapFrom(149, 150, 151); }
    assert Gap(151, 157) by { GapFrom(151, 152, 157); }
    assert Gap(157, 163) by { GapFrom(157, 158, 163); }
    assert Gap(163, 167) by { GapFrom(163, 164, 167); }
    assert Gap(167, 173) by { GapFrom(167, 168, 173); }
  }

  lemma Gaps5()
    ensures Gap(PrimeRow(4)[7], PrimeRow(5)[0])
    ensures forall j :: 1 <= j < 8 ==> Gap(PrimeRow(5)[j - 1], PrimeRow(5)[j])
  {
    hide Gap;
    assert Gap(173, 179) by { GapFrom(173, 174, 179); }
    assert Gap(179, 181) by { GapFrom(179, 180, 181); }
    assert Gap(181, 191) by { GapFrom(181, 182, 191); }
    assert Gap(191, 193) by { GapFrom(191, 192, 193); }
    assert Gap(193, 197) by { GapFrom(193, 194, 197); }
    assert Gap(197, 199) by { GapFrom(197, 198, 199); }
    assert Gap(199, 211) by { GapFrom(199, 200, 211); }
    assert Gap(211, 223) by { GapFrom(211, 212, 223); }
  }

  lemma Gaps6()
    ensures Gap(PrimeRow(5)[7], PrimeRow(6)[0])
    ensures forall j :: 1 <= j < 8 ==> Gap(PrimeRow(6)[j - 1], PrimeRow(6)[j])
  {
    hide Gap;
    assert Gap(223, 227) by { GapFrom(223, 224, 227); }
    assert Gap(227, 229) by { GapFrom(227, 228, 229); }
    assert Gap(229, 233) by { GapFrom(229, 230, 233); }
    assert Gap(233, 239) by { GapFrom(233, 234, 239); }
    assert Gap(239, 241) by { GapFrom(239, 240, 241); }
    assert Gap(241, 251) by { GapFrom(241, 242, 251); }
    assert Gap(251, 257) by { GapFrom(251, 252, 257); }
    assert Gap(257, 263) by { GapFrom(257, 258, 263); }
  }

  lemma Gaps7()
    ensures Gap(PrimeRow(6)[7], PrimeRow(7)[0])
    ensures forall j :: 1 <= j < 8 ==> Gap(PrimeRow(7)[j - 1], PrimeRow(7)[j])
  {
    hide Gap;
    assert Gap(263, 269) by { GapFrom(263, 264, 269); }
    assert Gap(269, 271) by { GapFrom(269, 270, 271); }
    assert Gap(271, 277) by { GapFrom(271, 272, 277); }
    assert Gap(277, 281) by { GapFrom(277, 278, 281); }
    assert Gap(281, 283) by { GapFrom(281, 282, 283); }
    assert Gap(283, 293) by { GapFrom(283, 284, 293); }
    assert Gap(293, 307) by {
      assert Barren(301, 307);
      GapFrom(293, 294, 307);
    }
    assert Gap(307, 311) by { GapFrom(307, 308, 311); }
  }

  lemma PrimeGap(i: nat)
    requires 0 < i < 64
    ensures Gap(Prime(i - 1), Prime(i))
  {
    hide Gap;
    Gaps0();
    Gaps1();
    Gaps2();
    Gaps3();
    Gaps4();
    Gaps5();
    Gaps6();
    Gaps7();
    if i % 8 == 0 {
      assert (i - 1) / 8 == i / 8 - 1 && (i - 1) % 8 == 7;
    } else {
      assert (i - 1) / 8 == i / 8 && (i - 1) % 8 == i % 8 - 1;
    }
  }

  /** Prime(i) is prime number i, counting from 0. */
  lemma {:induction false} PrimesExact(i: nat)
    requires i < 64
    ensures IsNthPrime(i, Prime(i))
  {
    hide Gap, Prime;
    if i == 0 {
      FirstPrime();
    } else {
      PrimesExact(i - 1);
      PrimeGap(i);
      NextPrime(i - 1, Prime(i - 1), Prime(i));
    }
  }

  lemma FirstPrime()
    ensures IsNthPrime(0, Prime(0))
  {
    hide IsPrime;
    SievedExact(2);
    NoPrimes(0, 2);
  }

  // ----- their roots

  /** k is the first 32 bits of the fractional part of the cube root of p. */
  ghost predicate CubeRootFraction(p: nat, k: nat) {
    exists x: nat :: Cube(x) <= p * 0x1_0000_0000_0000_0000_0000_0000 < Cube(x + 1) && x % 0x1_0000_0000 == k
  }

  /** k is the first 32 bits of the fractional part of the square root of p. */
  ghost predicate SquareRootFraction(p: nat, k: nat) {
    exists x: nat :: Square(x) <= p * 0x1_0000_0000_0000_0000 < Square(x + 1) && x % 0x1_0000_0000 == k
  }

  function Cube(x: nat): nat { x * x * x }

  function Square(x: nat): nat { x * x }

  lemma CubeGrows(x: nat, y: nat)
    requires x <= y
    ensures Cube(x) <= Cube(y)
  {
    SquareGrows(x, y);
    assert x * x * x <= y * y * x by { Scales(x * x, y * y, x); }
    assert y * y * x <= y * y * y by { Scales(x, y, y * y); }
  }

  lemma SquareGrows(x: nat, y: nat)
    requires x <= y
    ensures Square(x) <= Square(y)
  {
    assert x * x <= x * y by { Scales(x, y, x); }
    assert x * y <= y * y by { Scales(x, y, y); }
  }

  lemma Scales(a: nat, b: nat, c: nat)
    requires a <= b
    ensures c * a <= c * b && a * c <= b * c
  {}

  /** No other number is such a fraction of the same prime. */
  lemma FractionsUnique(p: nat, k: nat, l: nat)
    ensures CubeRootFraction(p, k) && CubeRootFraction(p, l) ==> k == l
    ensures SquareRootFraction(p, k) && SquareRootFraction(p, l) ==> k == l
  {
    hide Cube, Square;
    if CubeRootFraction(p, k) && CubeRootFraction(p, l) {
      var n := p * 0x1_0000_0000_0000_0000_0000_0000;
      var x: nat :| Cube(x) <= n < Cube(x + 1) && x % 0x1_0000_0000 == k;
      var y: nat :| Cube(y) <= n < Cube(y + 1) && y % 0x1_0000_0000 == l;
      if x < y { CubeGrows(x + 1, y); }
      if y < x { CubeGrows(y + 1, x); }
    }
    if SquareRootFraction(p, k) && SquareRootFraction(p, l) {
      var n := p * 0x1_0000_0000_0000_0000;
      var x: nat :| Square(x) <= n < Square(x + 1) && x % 0x1_0000_0000 == k;
      var y: nat :| Square(y) <= n < Square(y + 1) && y % 0x1_0000_0000 == l;
      if x < y { SquareGrows(x + 1, y); }
      if y < x { SquareGrows(y + 1, x); }
    }
  }

  lemma CubeRoot(p: nat, x: nat, k: nat)
    requires Cube(x) <= p * 0x1_0000_0000_0000_0000_0000_0000 < Cube(x + 1) && x % 0x1_0000_0000 == k
    ensures CubeRootFraction(p, k)
  {}

  lemma Roots0()
    ensures forall j :: 0 <= j < 8 ==> CubeRootFraction(PrimeRow(0)[j], Sha256.ConstantRow(0)[j])
  {
    hide CubeRootFraction;
    CubeRoot(2, 0x1_428a_2f98, 0x428a2f98);
    CubeRoot(3, 0x1_7137_4491, 0x71374491);
    CubeRoot(5, 0x1_b5c0_fbcf, 0xb5c0fbcf);
    CubeRoot(7, 0x1_e9b5_dba5, 0xe9b5dba5);
    CubeRoot(11, 0x2_3956_c25b, 0x3956c25b);
    CubeRoot(13, 0x2_59f1_11f1, 0x59f111f1);
    CubeRoot(17, 0x2_923f_82a4, 0x923f82a4);
    CubeRoot(19, 0x2_ab1c_5ed5, 0xab1c5ed5);
  }

  lemma Roots1()
    ensures forall j :: 0 <= j < 8 ==> CubeRootFraction(PrimeRow(1)[j], Sha256.ConstantRow(1)[j])
  {
    hide CubeRootFraction;
    CubeRoot(23, 0x2_d807_aa98, 0xd807aa98);
    CubeRoot(29, 0x3_1283_5b01, 0x12835b01);
    CubeRoot(31, 0x3_2431_85be, 0x243185be);
    CubeRoot(37, 0x3_550c_7dc3, 0x550c7dc3);
    CubeRoot(41, 0x3_72be_5d74, 0x72be5d74);
    CubeRoot(43, 0x3_80de_b1fe, 0x80deb1fe);
    CubeRoot(47, 0x3_9bdc_06a7, 0x9bdc06a7);
    CubeRoot(53, 0x3_c19b_f174, 0xc19bf174);
  }

  lemma Roots2()
    ensures forall j :: 0 <= j < 8 ==> CubeRootFraction(PrimeRow(2)[j], Sha256.ConstantRow(2)[j])
  {
    hide CubeRootFraction;
    CubeRoot(59, 0x3_e49b_69c1, 0xe49b69c1);
    CubeRoot(61, 0x3_efbe_4786, 0xefbe4786);
    CubeRoot(67, 0x4_0fc1_9dc6, 0x0fc19dc6);
    CubeRoot(71, 0x4_240c_a1cc, 0x240ca1cc);
    CubeRoot(73, 0x4_2de9_2c6f, 0x2de92c6f);
    CubeRoot(79, 0x4_4a74_84aa, 0x4a7484aa);
    CubeRoot(83, 0x4_5cb0_a9dc, 0x5cb0a9dc);
    CubeRoot(89, 0x4_76f9_88da, 0x76f988da);
  }

  lemma Roots3()
    ensures forall j :: 0 <= j < 8 ==> CubeRootFraction(PrimeRow(3)[j], Sha256.ConstantRow(3)[j])
  {
    hide CubeRootFraction;
    CubeRoot(97, 0x4_983e_5152, 0x983e5152);
    CubeRoot(101, 0x4_a831_c66d, 0xa831c66d);
    CubeRoot(103, 0x4_b003_27c8, 0xb00327c8);
    CubeRoot(107, 0x4_bf59_7fc7, 0xbf597fc7);
    CubeRoot(109, 0x4_c6e0_0bf3, 0xc6e00bf3);
    CubeRoot(113, 0x4_d5a7_9147, 0xd5a79147);
    CubeRoot(127, 0x5_06ca_6351, 0x06ca6351);
    CubeRoot(131, 0x5_1429_2967, 0x14292967);
  }

  lemma Roots4()
    ensures forall j :: 0 <= j < 8 ==> CubeRootFraction(PrimeRow(4)[j], Sha256.ConstantRow(4)[j])
  {
    hide CubeRootFraction;
    CubeRoot(137, 0x5_27b7_0a85, 0x27b70a85);
    CubeRoot(139, 0x5_2e1b_2138, 0x2e1b2138);
    CubeRoot(149, 0x5_4d2c_6dfc, 0x4d2c6dfc);
    CubeRoot(151, 0x5_5338_0d13, 0x53380d13);
    CubeRoot(157, 0x5_650a_7354, 0x650a7354);
    CubeRoot(163, 0x5_766a_0abb, 0x766a0abb);
    CubeRoot(167, 0x5_81c2_c92e, 0x81c2c92e);
    CubeRoot(173, 0x5_9272_2c85, 0x92722c85);
  }

  lemma Roots5()
    ensures forall j :: 0 <= j < 8 ==> CubeRootFraction(PrimeRow(5)[j], Sha256.ConstantRow(5)[j])
  {
    hide CubeRootFraction;
    CubeRoot(179, 0x5_a2bf_e8a1, 0xa2bfe8a1);
    CubeRoot(181, 0x5_a81a_664b, 0xa81a664b);
    CubeRoot(191, 0x5_c24b_8b70, 0xc24b8b70);
    CubeRoot(193, 0x5_c76c_51a3, 0xc76c51a3);
    CubeRoot(197, 0x5_d192_e819, 0xd192e819);
    CubeRoot(199, 0x5_d699_0624, 0xd6990624);
    CubeRoot(211, 0x5_f40e_3585, 0xf40e3585);
    CubeRoot(223, 0x6_106a_a070, 0x106aa070);
  }

  lemma Roots6()
    ensures forall j :: 0 <= j < 8 ==> CubeRootFraction(PrimeRow(6)[j], Sha256.ConstantRow(6)[j])
  {
    hide CubeRootFraction;
    CubeRoot(227, 0x6_19a4_c116, 0x19a4c116);
    CubeRoot(229, 0x6_1e37_6c08, 0x1e376c08);
    CubeRoot(233, 0x6_2748_774c, 0x2748774c);
    CubeRoot(239, 0x6_34b0_bcb5, 0x34b0bcb5);
    CubeRoot(241, 0x6_391c_0cb3, 0x391c0cb3);
    CubeRoot(251, 0x6_4ed8_aa4a, 0x4ed8aa4a);
    CubeRoot(257, 0x6_5b9c_ca4f, 0x5b9cca4f);
    CubeRoot(263, 0x6_682e_6ff3, 0x682e6ff3);
  }

  lemma Roots7()
    ensures forall j :: 0 <= j < 8 ==> CubeRootFraction(PrimeRow(7)[j], Sha256.ConstantRow(7)[j])
  {
    hide CubeRootFraction;
    CubeRoot(269, 0x6_748f_82ee, 0x748f82ee);
    CubeRoot(271, 0x6_78a5_636f, 0x78a5636f);
    CubeRoot(277, 0x6_84c8_7814, 0x84c87814);
    CubeRoot(281, 0x6_8cc7_0208, 0x8cc70208);
    CubeRoot(283, 0x6_90be_fffa, 0x90befffa);
    CubeRoot(293, 0x6_a450_6ceb, 0xa4506ceb);
    CubeRoot(307, 0x6_bef9_a3f7, 0xbef9a3f7);
    CubeRoot(311, 0x6_c671_78f2, 0xc67178f2);
  }

  lemma ConstantIsRoot(i: nat)
    requires i < 64
    ensures CubeRootFraction(Prime(i), Sha256.ConstantRow(i / 8)[i % 8])
  {
    hide CubeRootFraction;
    Roots0();
    Roots1();
    Roots2();
    Roots3();
    Roots4();
    Roots5();
    Roots6();
    Roots7();
  }

  /** Word K[i] holds the first 32 bits of the fractional part of the cube root of prime number i. */
  lemma RoundConstantsExact(i: nat)
    requires i < 64
    ensures IsNthPrime(i, Prime(i)) && CubeRootFraction(Prime(i), Val(Sha256.K[i]))
  {
    hide CubeRootFraction, IsNthPrime, Prime, Sha256.ConstantRow;
    PrimesExact(i);
    ConstantIsRoot(i);
    var k := Sha256.ConstantRow(i / 8)[i % 8];
    FractionFits(Prime(i), k);
    Pow2Of32();
    ValFromNat(k, 32);
  }

  lemma FractionFits(p: nat, k: nat)
    requires CubeRootFraction(p, k)
    ensures k < 0x1_0000_0000
  {}

  lemma SquareRoot(p: nat, x: nat, k: nat)
    requires Square(x) <= p * 0x1_0000_0000_0000_0000 < Square(x + 1) && x % 0x1_0000_0000 == k
    ensures SquareRootFraction(p, Val(FromNat(k, 32)))
  {
    hide Square;
    Pow2Of32();
    ValFromNat(k, 32);
  }

  /** The words of the initial hash value are those of the square roots of the first eight primes. */
  lemma InitialHashExact()
    ensures forall i :: 0 <= i < 8 ==> SquareRootFraction(Prime(i), Val(Sha256.WordsOf(Sha256.H0)[i]))
  {
    hide SquareRootFraction, FromNat, Val;
    SquareRoot(2, 0x1_6a09_e667, 0x6a09e667);
    SquareRoot(3, 0x1_bb67_ae85, 0xbb67ae85);
    SquareRoot(5, 0x2_3c6e_f372, 0x3c6ef372);
    SquareRoot(7, 0x2_a54f_f53a, 0xa54ff53a);
    SquareRoot(11, 0x3_510e_527f, 0x510e527f);
    SquareRoot(13, 0x3_9b05_688c, 0x9b05688c);
    SquareRoot(17, 0x4_1f83_d9ab, 0x1f83d9ab);
    SquareRoot(19, 0x4_5be0_cd19, 0x5be0cd19);
  }
}
