/** How many rounds the proof runs, and what they buy. */
module RoundCount {
  /** NUM_ROUNDS. */
  const NUM_ROUNDS: nat := 136

  function Pow(b: nat, n: nat): nat {
    if n == 0 then 1 else b * Pow(b, n - 1)
  }

  /** A prover who is ready for two of the three challenges of each of r rounds is ready for all of them
      in 2^r of the 3^r cases: at most one in 2^k. */
  ghost predicate Enough(k: nat, r: nat) { Pow(2, k) * Pow(2, r) <= Pow(3, r) }

  lemma EnoughNext(k: nat, r: nat)
    requires Enough(k, r)
    ensures Enough(k, r + 1)
  {
    Doubled(Pow(2, k), Pow(2, r), Pow(3, r));
  }

  lemma Doubled(c: nat, x: nat, y: nat)
    requires c * x <= y
    ensures c * (2 * x) <= 3 * y
  {}

  lemma {:induction false} EnoughGrows(k: nat, m: nat, n: nat)
    requires m <= n && Enough(k, m)
    ensures Enough(k, n)
  {
    hide Enough;
    if m < n {
      EnoughGrows(k, m, n - 1);
      EnoughNext(k, n - 1);
    }
  }

  lemma {:induction false} PowAdds(b: nat, m: nat, n: nat)
    ensures Pow(b, m + n) == Pow(b, m) * Pow(b, n)
  {
    if m > 0 {
      PowAdds(b, m - 1, n);
      Regroup(b, Pow(b, m - 1), Pow(b, n));
    }
  }

  lemma Regroup(a: nat, b: nat, c: nat)
    ensures a * (b * c) == a * b * c
  {}

  lemma PowSum(b: nat, m: nat, v: nat, n: nat, w: nat)
    requires Pow(b, m) == v && Pow(b, n) == w
    ensures Pow(b, m + n) == v * w
  {
    PowAdds(b, m, n);
  }

  lemma PowersOfTwo()
    ensures Pow(2, 79) == 0x8000_00000000_00000000
    ensures Pow(2, 135) == 0x80_00000000_00000000_00000000_00000000
  {
    assert Pow(2, 1) == 2;
    hide Pow;
    PowSum(2, 1, 0x2, 1, 0x2);
    PowSum(2, 2, 0x4, 2, 0x4);
    PowSum(2, 4, 0x10, 4, 0x10);
    PowSum(2, 8, 0x100, 8, 0x100);
    PowSum(2, 16, 0x10000, 16, 0x10000);
    PowSum(2, 32, 0x1_00000000, 32, 0x1_00000000);
    PowSum(2, 64, 0x1_00000000_00000000, 64, 0x1_00000000_00000000);
    PowSum(2, 128, 0x1_00000000_00000000_00000000_00000000, 4, 0x10);
    PowSum(2, 132, 0x10_00000000_00000000_00000000_00000000, 2, 0x4);
    PowSum(2, 134, 0x40_00000000_00000000_00000000_00000000, 1, 0x2);
    PowSum(2, 64, 0x1_00000000_00000000, 8, 0x100);
    PowSum(2, 72, 0x100_00000000_00000000, 4, 0x10);
    PowSum(2, 76, 0x1000_00000000_00000000, 2, 0x4);
    PowSum(2, 78, 0x4000_00000000_00000000, 1, 0x2);
  }

  lemma PowersOfThree()
    ensures Pow(3, 135) == 0x3eae20_c9b77961_715ffb63_c091d0b8_6b5f9b93_b4852eaa_6ad4468b
  {
    assert Pow(3, 1) == 3;
    hide Pow;
    PowSum(3, 1, 0x3, 1, 0x3);
    PowSum(3, 2, 0x9, 2, 0x9);
    PowSum(3, 4, 0x51, 4, 0x51);
    PowSum(3, 8, 0x19a1, 8, 0x19a1);
    PowSum(3, 16, 0x290d741, 16, 0x290d741);
    PowSum(3, 32, 0x6954f_e21e3e81, 32, 0x6954f_e21e3e81);
    PowSum(3, 64, 0x2b_56d4af8f_7932278c_797ebd01, 64, 0x2b_56d4af8f_7932278c_797ebd01);
    PowSum(3, 128, 0x756_48e690da_5a4d2eef_e4588f7c_fb7be364_80421481_8a867a01, 4, 0x51);
    PowSum(3, 132, 0x2524d_10f3d516_926bd9e7_4005668b_9232f2cc_94e87cfc_d48c9a51, 2, 0x9);
    PowSum(3, 134, 0x14e4b5_98927dcb_25caa921_40309ae8_23ca8931_3c2c64e3_78f16cd9, 1, 0x3);
  }

  lemma NextPower(b: nat, m: nat, v: nat)
    requires Pow(b, m) == v
    ensures Pow(b, m + 1) == b * v
  {}

  lemma AtTheEdge()
    ensures !Enough(79, 135) && Enough(79, 136) && !Enough(80, 136) && Enough(80, 137)
  {
    PowersOfTwo();
    PowersOfThree();
    hide Pow;
    NextPower(2, 79, 0x8000_00000000_00000000);
    NextPower(2, 135, 0x80_00000000_00000000_00000000_00000000);
    NextPower(2, 136, 0x100_00000000_00000000_00000000_00000000);
    NextPower(3, 135, 0x3eae20_c9b77961_715ffb63_c091d0b8_6b5f9b93_b4852eaa_6ad4468b);
    NextPower(3, 136, 0xbc0a62_5d266c24_541ff22b_41b57229_421ed2bb_1d8f8bff_407cd3a1);
  }

  /** NUM_ROUNDS is the least number of rounds for a soundness error of at most 2^-79. */
  lemma RoundsLeast(r: nat)
    ensures Enough(79, r) <==> NUM_ROUNDS <= r
  {
    hide Enough;
    AtTheEdge();
    if NUM_ROUNDS <= r { EnoughGrows(79, 136, r); } else if Enough(79, r) { EnoughGrows(79, r, 135); }
  }

  /** An error of at most 2^-80 takes one round more. */
  lemma OneRoundShort(r: nat)
    ensures Enough(80, r) <==> NUM_ROUNDS + 1 <= r
  {
    hide Enough;
    AtTheEdge();
    if NUM_ROUNDS + 1 <= r { EnoughGrows(80, 137, r); } else if Enough(80, r) { EnoughGrows(80, r, 136); }
  }
}
