/** Masks of 32 flags, bit by bit. */
module Bits {

  predicate Low(b: bv32) {
    b & 1 == 1
  }

  function Half(b: bv32): bv32 {
    b >> 1
  }

  /** Flag `i` of a mask. */
  predicate Bit(b: bv32, i: nat)
    decreases i
  {
    if i == 0 then Low(b) else Bit(Half(b), i - 1)
  }

  function And(a: bv32, b: bv32): bv32 {
    a & b
  }

  function Or(a: bv32, b: bv32): bv32 {
    a | b
  }

  function Not(b: bv32): bv32 {
    !b
  }

  // ---------------------------------------------------------------- halving

  lemma HalfAnd(a: bv32, b: bv32)
    ensures Low(And(a, b)) <==> Low(a) && Low(b)
    ensures Half(And(a, b)) == And(Half(a), Half(b))
  {
  }

  lemma HalfOr(a: bv32, b: bv32)
    ensures Low(Or(a, b)) <==> Low(a) || Low(b)
    ensures Half(Or(a, b)) == Or(Half(a), Half(b))
  {
  }

  lemma {:induction false} BitAnd(a: bv32, b: bv32, i: nat)
    ensures Bit(And(a, b), i) <==> Bit(a, i) && Bit(b, i)
    decreases i
  {
    hide And, Half, Low;
    HalfAnd(a, b);
    if i > 0 { BitAnd(Half(a), Half(b), i - 1); }
  }

  lemma {:induction false} BitOr(a: bv32, b: bv32, i: nat)
    ensures Bit(Or(a, b), i) <==> Bit(a, i) || Bit(b, i)
    decreases i
  {
    hide Or, Half, Low;
    HalfOr(a, b);
    if i > 0 { BitOr(Half(a), Half(b), i - 1); }
  }

  lemma HalfZero()
    ensures !Low(0) && Half(0) == 0
  {
  }

  lemma {:induction false} ZeroHasNoBit(i: nat)
    ensures !Bit(0, i)
    decreases i
  {
    hide Half, Low;
    HalfZero();
    if i > 0 { ZeroHasNoBit(i - 1); }
  }

  // ---------------------------------------------------------------- 32 flags and no more

  function Double(b: bv32): bv32 {
    (b << 1) | 1
  }

  /** The mask of the lowest `width` flags. */
  function Full(width: nat): bv32
    decreases width
  {
    if width == 0 then 0 else Double(Full(width - 1))
  }

  const FULL: bv32 := 0xFFFF_FFFF

  lemma FullSizes()
    ensures Full(31) == 0x7FFF_FFFF && Full(32) == FULL
  {
    assert Full(8) == 0xFF;
    assert Full(16) == 0xFFFF;
    assert Full(24) == 0xFF_FFFF;
  }

  lemma AndFull(b: bv32)
    ensures And(b, FULL) == b && And(b, 0) == 0
  {
  }

  lemma HalfFits(b: bv32, full: bv32)
    requires And(b, Double(full)) == b
    ensures And(Half(b), full) == Half(b)
  {
  }

  lemma HalfIsZero(b: bv32)
    requires Half(b) == 0 && !Low(b)
    ensures b == 0
  {
  }

  /** A mask with flags below `width` only, and none of them, is zero. */
  lemma {:induction false} NoBitIsZero(b: bv32, width: nat)
    requires And(b, Full(width)) == b && forall i :: 0 <= i < width ==> !Bit(b, i)
    ensures b == 0
    decreases width
  {
    hide And, Half, Low, Double;
    if width == 0 {
      AndFull(b);
    } else {
      assert !Bit(b, 0);
      HalfFits(b, Full(width - 1));
      forall i {:trigger Bit(Half(b), i)} | 0 <= i < width - 1 ensures !Bit(Half(b), i) {
        assert !Bit(b, i + 1);
      }
      NoBitIsZero(Half(b), width - 1);
      HalfIsZero(b);
    }
  }

  ghost predicate SomeBit(b: bv32) {
    exists i :: 0 <= i < 32 && Bit(b, i)
  }

  /** A mask is not zero exactly if one of its 32 flags is set. */
  lemma NonZeroHasBit(b: bv32)
    ensures b != 0 <==> SomeBit(b)
  {
    hide And, Half, Low, Double;
    if b == 0 {
      forall i | 0 <= i < 32 ensures !Bit(b, i) {
        ZeroHasNoBit(i);
      }
    } else if !SomeBit(b) {
      FullSizes();
      AndFull(b);
      NoBitIsZero(b, 32);
    }
  }

  lemma HalfDouble(b: bv32)
    requires And(b, 0x7FFF_FFFF) == b
    ensures Half(Double(b)) == b && Low(Double(b))
  {
  }

  lemma DoubleKeeps(a: bv32, b: bv32)
    requires And(a, b) == a
    ensures And(Double(a), Double(b)) == Double(a)
  {
  }

  lemma {:induction false} FullGrows(a: nat, b: nat)
    requires a <= b
    ensures And(Full(a), Full(b)) == Full(a)
    decreases b
  {
    hide And, Double;
    if a == 0 {
      ZeroWithin(Full(b));
    } else {
      FullGrows(a - 1, b - 1);
      DoubleKeeps(Full(a - 1), Full(b - 1));
    }
  }

  lemma ZeroWithin(b: bv32)
    ensures And(0, b) == 0
  {
  }

  lemma {:induction false} FullHasBit(width: nat, i: nat)
    requires i < width <= 32
    ensures Bit(Full(width), i)
    decreases width
  {
    hide And, Double, Half, Low;
    FullSizes();
    FullGrows(width - 1, 31);
    HalfDouble(Full(width - 1));
    if i > 0 { FullHasBit(width - 1, i - 1); }
  }

  lemma Complement(b: bv32)
    ensures And(b, Not(b)) == 0 && Or(b, Not(b)) == FULL
  {
  }

  lemma BitNot(b: bv32, i: nat)
    requires i < 32
    ensures Bit(Not(b), i) <==> !Bit(b, i)
  {
    hide And, Or, Not, Bit, Full;
    BitAnd(b, Not(b), i);
    BitOr(b, Not(b), i);
    Complement(b);
    ZeroHasNoBit(i);
    FullSizes();
    FullHasBit(32, i);
  }

  // ---------------------------------------------------------------- masks as sets of flags

  /** Every flag of `a` is a flag of `b`. */
  ghost predicate Covers(b: bv32, a: bv32) {
    forall i :: 0 <= i < 32 && Bit(a, i) ==> Bit(b, i)
  }

  /** Some flag is in both. */
  ghost predicate Shares(a: bv32, b: bv32) {
    exists i :: 0 <= i < 32 && Bit(a, i) && Bit(b, i)
  }

  lemma SharesIs(a: bv32, b: bv32)
    ensures Shares(a, b) <==> And(a, b) != 0
  {
    hide And, Bit;
    NonZeroHasBit(And(a, b));
    forall i {:trigger Bit(And(a, b), i)} | 0 <= i < 32 ensures Bit(And(a, b), i) <==> Bit(a, i) && Bit(b, i) {
      BitAnd(a, b, i);
    }
    if Shares(a, b) {
      var i :| 0 <= i < 32 && Bit(a, i) && Bit(b, i);
      assert Bit(And(a, b), i);
    }
  }

  lemma CoversIs(b: bv32, a: bv32)
    ensures Covers(b, a) <==> And(b, a) == a
  {
    hide And, Not, Bit;
    if And(b, a) == a {
      forall i | 0 <= i < 32 && Bit(a, i) ensures Bit(b, i) {
        BitAnd(b, a, i);
      }
    } else {
      Missing(b, a);
      NonZeroHasBit(And(a, Not(b)));
      var i :| 0 <= i < 32 && Bit(And(a, Not(b)), i);
      BitAnd(a, Not(b), i);
      BitNot(b, i);
    }
  }

  lemma Missing(b: bv32, a: bv32)
    requires And(b, a) != a
    ensures And(a, Not(b)) != 0
  {
  }
}
