/** The two nonlinear gates on three XOR shares, the two checks the verifier makes on a pair of
    parties, and how the two fit together. */
module Shares {
  import opened Bits

  function XorShares(x: Triple<Word>, y: Triple<Word>): Triple<Word> {
    Triple(Xor(x.p0, y.p0), Xor(x.p1, y.p1), Xor(x.p2, y.p2))
  }

  function XorPair(x: Pair<Word>, y: Pair<Word>): Pair<Word> {
    Pair(Xor(x.own, y.own), Xor(x.next, y.next))
  }

  /** What a verifier of challenge e sees of a triple. */
  function Opened<T>(t: Triple<T>, e: nat): Pair<T> {
    Pair(t.At(e), t.At(e + 1))
  }

  // ----- the AND gate

  /** One party's output share, from its own and the next party's shares and tape words. */
  function AndShare(x: Pair<Word>, y: Pair<Word>, r: Pair<Word>): (z: Word)
    ensures forall i :: 0 <= i < 32 ==> z[i] == AndBit(x, y, r, i)
  {
    Xor(Xor(Xor(Xor(And(x.own, y.next), And(x.next, y.own)), And(x.own, y.own)), r.own), r.next)
  }

  predicate AndBit(x: Pair<Word>, y: Pair<Word>, r: Pair<Word>, i: nat)
    requires i < 32
  {
    ((((x.own[i] && y.next[i]) != (x.next[i] && y.own[i])) != (x.own[i] && y.own[i])) != r.own[i]) != r.next[i]
  }

  function AndShares(x: Triple<Word>, y: Triple<Word>, r: Triple<Word>): Triple<Word> {
    Triple(AndShare(Opened(x, 0), Opened(y, 0), Opened(r, 0)),
           AndShare(Opened(x, 1), Opened(y, 1), Opened(r, 1)),
           AndShare(Opened(x, 2), Opened(y, 2), Opened(r, 2)))
  }

  /** The shared AND opens to the AND of the opened inputs, whatever the tapes. */
  lemma AndSharesOpen(x: Triple<Word>, y: Triple<Word>, r: Triple<Word>)
    ensures Xor3(AndShares(x, y, r)) == And(Xor3(x), Xor3(y))
  {
    var z, w := Xor3(AndShares(x, y, r)), And(Xor3(x), Xor3(y));
    forall i | 0 <= i < 32 ensures z[i] == w[i] {
      assert w[i] == (Xor3(x)[i] && Xor3(y)[i]);
    }
  }

  // ----- the ADD gate

  /** One party's next carry bit, from its own and the next party's bits and tape bits. */
  function NextCarry(x: Pair<bool>, y: Pair<bool>, r: Pair<bool>, c: Pair<bool>): bool {
    var a, b := Pair(x.own != c.own, x.next != c.next), Pair(y.own != c.own, y.next != c.next);
    ((((a.own && b.next) != (a.next && b.own)) != r.next) != (a.own && b.own)) != (c.own != r.own)
  }

  function PairBit(p: Pair<Word>, i: nat): Pair<bool>
    requires i < 32
  {
    Pair(p.own[i], p.next[i])
  }

  predicate CarryStep(x: Pair<Word>, y: Pair<Word>, r: Pair<Word>, c: Pair<Word>, i: nat)
    requires i < 31
  {
    c.own[i + 1] == NextCarry(PairBit(x, i), PairBit(y, i), PairBit(r, i), PairBit(c, i))
  }

  /** The check mpc_ADD_verify makes: bits 1 to 31 of the party's recorded carry word. */
  predicate AddCheck(x: Pair<Word>, y: Pair<Word>, r: Pair<Word>, c: Pair<Word>) {
    forall i :: 0 <= i < 31 ==> CarryStep(x, y, r, c, i)
  }

  function TripleBit(t: Triple<Word>, i: nat): Triple<bool>
    requires i < 32
  {
    Triple(t.p0[i], t.p1[i], t.p2[i])
  }

  function NextCarries(x: Triple<bool>, y: Triple<bool>, r: Triple<bool>, c: Triple<bool>): Triple<bool> {
    Triple(NextCarry(Opened(x, 0), Opened(y, 0), Opened(r, 0), Opened(c, 0)),
           NextCarry(Opened(x, 1), Opened(y, 1), Opened(r, 1), Opened(c, 1)),
           NextCarry(Opened(x, 2), Opened(y, 2), Opened(r, 2), Opened(c, 2)))
  }

  /** The three carry shares at bit i, when the ripple starts from the bits low. */
  function CarryAt(x: Triple<Word>, y: Triple<Word>, r: Triple<Word>, low: Triple<bool>, i: nat): Triple<bool>
    requires i < 32
  {
    if i == 0 then low
    else NextCarries(TripleBit(x, i - 1), TripleBit(y, i - 1), TripleBit(r, i - 1), CarryAt(x, y, r, low, i - 1))
  }

  /** The three carry words; mpc_ADD starts the ripple from zero bits. */
  function AddCarries(x: Triple<Word>, y: Triple<Word>, r: Triple<Word>, low: Triple<bool>): (c: Triple<Word>)
    ensures forall i :: 0 <= i < 32 ==> TripleBit(c, i) == CarryAt(x, y, r, low, i)
  {
    Triple(seq(32, i requires 0 <= i < 32 => CarryAt(x, y, r, low, i).p0),
           seq(32, i requires 0 <= i < 32 => CarryAt(x, y, r, low, i).p1),
           seq(32, i requires 0 <= i < 32 => CarryAt(x, y, r, low, i).p2))
  }

  /** The output shares belonging to carry words c. */
  function SumShares(x: Triple<Word>, y: Triple<Word>, c: Triple<Word>): Triple<Word> {
    XorShares(XorShares(x, y), c)
  }

  const NO_CARRY := Triple(false, false, false)

  function CarryIn(low: Triple<bool>): bool { (low.p0 != low.p1) != low.p2 }

  /** The checks of all three challenges. */
  predicate AddChecks(x: Triple<Word>, y: Triple<Word>, r: Triple<Word>, c: Triple<Word>) {
    && AddCheck(Opened(x, 0), Opened(y, 0), Opened(r, 0), Opened(c, 0))
    && AddCheck(Opened(x, 1), Opened(y, 1), Opened(r, 1), Opened(c, 1))
    && AddCheck(Opened(x, 2), Opened(y, 2), Opened(r, 2), Opened(c, 2))
  }

  /** The three checks together pin all three carry words down to their lowest bits. */
  lemma ChecksExact(x: Triple<Word>, y: Triple<Word>, r: Triple<Word>, c: Triple<Word>)
    ensures AddChecks(x, y, r, c) <==> c == AddCarries(x, y, r, TripleBit(c, 0))
  {
    if c == AddCarries(x, y, r, TripleBit(c, 0)) {
      CarriesPassChecks(x, y, r, TripleBit(c, 0));
    }
    if AddChecks(x, y, r, c) {
      ChecksForceWords(x, y, r, c);
    }
  }

  lemma CarriesPassChecks(x: Triple<Word>, y: Triple<Word>, r: Triple<Word>, low: Triple<bool>)
    ensures AddChecks(x, y, r, AddCarries(x, y, r, low))
    ensures TripleBit(AddCarries(x, y, r, low), 0) == low
  {
    var c := AddCarries(x, y, r, low);
    assert TripleBit(c, 0) == CarryAt(x, y, r, low, 0);
    forall i | 0 <= i < 31
      ensures CarryStep(Opened(x, 0), Opened(y, 0), Opened(r, 0), Opened(c, 0), i)
      ensures CarryStep(Opened(x, 1), Opened(y, 1), Opened(r, 1), Opened(c, 1), i)
      ensures CarryStep(Opened(x, 2), Opened(y, 2), Opened(r, 2), Opened(c, 2), i)
    {
      CarriesStep(x, y, r, low, i);
    }
  }

  lemma CarriesStep(x: Triple<Word>, y: Triple<Word>, r: Triple<Word>, low: Triple<bool>, i: nat)
    requires i < 31
    ensures var c := AddCarries(x, y, r, low);
      TripleBit(c, i + 1) == NextCarries(TripleBit(x, i), TripleBit(y, i), TripleBit(r, i), TripleBit(c, i))
  {
    var c := AddCarries(x, y, r, low);
    assert TripleBit(c, i) == CarryAt(x, y, r, low, i);
    assert TripleBit(c, i + 1) == CarryAt(x, y, r, low, i + 1);
  }

  lemma ChecksForceWords(x: Triple<Word>, y: Triple<Word>, r: Triple<Word>, c: Triple<Word>)
    requires AddChecks(x, y, r, c)
    ensures c == AddCarries(x, y, r, TripleBit(c, 0))
  {
    var d := AddCarries(x, y, r, TripleBit(c, 0));
    forall i | 0 <= i < 32
      ensures c.p0[i] == d.p0[i] && c.p1[i] == d.p1[i] && c.p2[i] == d.p2[i]
    {
      ChecksForce(x, y, r, c, i);
      assert TripleBit(d, i) == CarryAt(x, y, r, TripleBit(c, 0), i);
    }
    assert c.p0 == d.p0;
    assert c.p1 == d.p1;
    assert c.p2 == d.p2;
  }

  lemma {:induction false} ChecksForce(x: Triple<Word>, y: Triple<Word>, r: Triple<Word>, c: Triple<Word>, i: nat)
    requires i < 32 && AddChecks(x, y, r, c)
    ensures TripleBit(c, i) == CarryAt(x, y, r, TripleBit(c, 0), i)
  {
    if i > 0 {
      ChecksForce(x, y, r, c, i - 1);
      assert CarryStep(Opened(x, 0), Opened(y, 0), Opened(r, 0), Opened(c, 0), i - 1);
      assert CarryStep(Opened(x, 1), Opened(y, 1), Opened(r, 1), Opened(c, 1), i - 1);
      assert CarryStep(Opened(x, 2), Opened(y, 2), Opened(r, 2), Opened(c, 2), i - 1);
    }
  }

  /** One party's cross products, without the masks. */
  function ProductShare(a: Pair<bool>, b: Pair<bool>): bool {
    ((a.own && b.next) != (a.next && b.own)) != (a.own && b.own)
  }

  function Products(a: Triple<bool>, b: Triple<bool>): Triple<bool> {
    Triple(ProductShare(Opened(a, 0), Opened(b, 0)),
           ProductShare(Opened(a, 1), Opened(b, 1)),
           ProductShare(Opened(a, 2), Opened(b, 2)))
  }

  /** The nine cross products the three parties compute open to the product. */
  lemma ProductShares(a: Triple<bool>, b: Triple<bool>)
    ensures CarryIn(Products(a, b)) == (CarryIn(a) && CarryIn(b))
  {}

  function XorBools(a: Triple<bool>, b: Triple<bool>): Triple<bool> {
    Triple(a.p0 != b.p0, a.p1 != b.p1, a.p2 != b.p2)
  }

  function Masked(p: Triple<bool>, c: Triple<bool>, r: Triple<bool>): Triple<bool> {
    Triple((p.p0 != c.p0) != (r.p0 != r.p1), (p.p1 != c.p1) != (r.p1 != r.p2), (p.p2 != c.p2) != (r.p2 != r.p0))
  }

  /** Every tape bit is used by two parties, so it cancels. */
  lemma MaskCancels(p: Triple<bool>, c: Triple<bool>, r: Triple<bool>)
    ensures CarryIn(Masked(p, c, r)) == (CarryIn(p) != CarryIn(c))
  {}

  function XorBoolPair(a: Pair<bool>, b: Pair<bool>): Pair<bool> { Pair(a.own != b.own, a.next != b.next) }

  lemma XorBoolsOpened(a: Triple<bool>, b: Triple<bool>, e: nat)
    requires e < 3
    ensures Opened(XorBools(a, b), e) == XorBoolPair(Opened(a, e), Opened(b, e))
  {}

  lemma NextCarryMasked(x: Pair<bool>, y: Pair<bool>, r: Pair<bool>, c: Pair<bool>)
    ensures NextCarry(x, y, r, c)
        == ((ProductShare(XorBoolPair(x, c), XorBoolPair(y, c)) != c.own) != (r.own != r.next))
  {}

  lemma NextCarryAt(x: Triple<bool>, y: Triple<bool>, r: Triple<bool>, c: Triple<bool>, e: nat)
    requires e < 3
    ensures NextCarry(Opened(x, e), Opened(y, e), Opened(r, e), Opened(c, e))
         == ((ProductShare(Opened(XorBools(x, c), e),
                           Opened(XorBools(y, c), e)) != c.At(e)) != (r.At(e) != r.At(e + 1)))
  {
    hide NextCarry, ProductShare, XorBools, XorBoolPair;
    XorBoolsOpened(x, c, e);
    XorBoolsOpened(y, c, e);
    NextCarryMasked(Opened(x, e), Opened(y, e), Opened(r, e), Opened(c, e));
  }

  lemma NextCarriesMasked(x: Triple<bool>, y: Triple<bool>, r: Triple<bool>, c: Triple<bool>)
    ensures NextCarries(x, y, r, c) == Masked(Products(XorBools(x, c), XorBools(y, c)), c, r)
  {
    hide NextCarry, ProductShare, XorBools;
    NextCarryAt(x, y, r, c, 0);
    NextCarryAt(x, y, r, c, 1);
    NextCarryAt(x, y, r, c, 2);
  }

  lemma XorBoolsOpen(a: Triple<bool>, b: Triple<bool>)
    ensures CarryIn(XorBools(a, b)) == (CarryIn(a) != CarryIn(b))
  {}

  /** Opening the next carry shares gives the next true carry. */
  lemma NextCarriesOpen(x: Triple<bool>, y: Triple<bool>, r: Triple<bool>, c: Triple<bool>)
    ensures CarryIn(NextCarries(x, y, r, c)) == Majority(CarryIn(x), CarryIn(y), CarryIn(c))
  {
    hide NextCarries, Products, Masked, XorBools, CarryIn;
    var a, b := XorBools(x, c), XorBools(y, c);
    NextCarriesMasked(x, y, r, c);
    MaskCancels(Products(a, b), c, r);
    ProductShares(a, b);
    XorBoolsOpen(x, c);
    XorBoolsOpen(y, c);
  }

  /** The XOR of the carry shares is the true ripple carry. */
  lemma CarriesRipple(x: Triple<Word>, y: Triple<Word>, r: Triple<Word>, low: Triple<bool>)
    ensures var c := Xor3(AddCarries(x, y, r, low));
      RippleCarry(Xor3(x), Xor3(y), c) && c[0] == CarryIn(low)
  {
    hide NextCarries;
    hide Majority;
    var cs := AddCarries(x, y, r, low);
    var c := Xor3(cs);
    assert TripleBit(cs, 0) == CarryAt(x, y, r, low, 0);
    forall i | 0 <= i < 31
      ensures c[i + 1] == Majority(Xor3(x)[i], Xor3(y)[i], c[i])
    {
      CarriesStep(x, y, r, low, i);
      NextCarriesOpen(TripleBit(x, i), TripleBit(y, i), TripleBit(r, i), TripleBit(cs, i));
    }
  }

  /** The shared ADD opens to the sum modulo 2^32 of the opened inputs and of the opened low carry bits. */
  lemma SumSharesOpen(x: Triple<Word>, y: Triple<Word>, r: Triple<Word>, low: Triple<bool>)
    ensures Xor3(SumShares(x, y, AddCarries(x, y, r, low))) == AddCarry(Xor3(x), Xor3(y), CarryIn(low))
  {
    var cs := AddCarries(x, y, r, low);
    CarriesRipple(x, y, r, low);
    RippleAdds(Xor3(x), Xor3(y), Xor3(cs));
    assert Xor3(SumShares(x, y, cs)) == Xor(Xor(Xor3(x), Xor3(y)), Xor3(cs));
  }

  /** A gate accepted for all three challenges adds correctly exactly when the lowest bits of its
      three recorded carry words cancel. */
  lemma AcceptedAddExact(x: Triple<Word>, y: Triple<Word>, r: Triple<Word>, c: Triple<Word>)
    requires AddChecks(x, y, r, c)
    ensures Xor3(SumShares(x, y, c)) == AddCarry(Xor3(x), Xor3(y), CarryIn(TripleBit(c, 0)))
    ensures Xor3(SumShares(x, y, c)) == Add(Xor3(x), Xor3(y)) <==> !CarryIn(TripleBit(c, 0))
  {
    hide AddCarry;
    hide Add;
    ChecksForceWords(x, y, r, c);
    SumSharesOpen(x, y, r, TripleBit(c, 0));
    AddCarryDiffers(Xor3(x), Xor3(y));
    AddIsAddCarry(Xor3(x), Xor3(y));
  }

  lemma AddCarryDiffers(x: Word, y: Word)
    ensures AddCarry(x, y, true) != Add(x, y)
  {
    hide FromNat;
    hide Val;
    var n := Val(x) + Val(y);
    ModParity(n);
    ModParity(n + 1);
    FirstBit((n + 1) % 0x1_0000_0000);
    FirstBit(n % 0x1_0000_0000);
  }

  lemma FirstBit(n: nat)
    ensures FromNat(n, 32)[0] == (n % 2 == 1)
  {}

  lemma ModParity(n: nat)
    ensures n % 0x1_0000_0000 % 2 == n % 2
  {}

  /** The checks alone never make a gate add correctly: for all inputs and tapes, the carry words that
      start from one set lowest bit pass all three checks and open to a wrong sum. */
  lemma ChecksAloneInsufficient(x: Triple<Word>, y: Triple<Word>, r: Triple<Word>)
    ensures var c := AddCarries(x, y, r, Triple(true, false, false));
      && AddChecks(x, y, r, c)
      && Xor3(SumShares(x, y, c)) != Add(Xor3(x), Xor3(y))
  {
    hide AddCarries, AddChecks, SumShares, Add, Xor3;
    var low := Triple(true, false, false);
    CarriesPassChecks(x, y, r, low);
    AcceptedAddExact(x, y, r, AddCarries(x, y, r, low));
  }
}
