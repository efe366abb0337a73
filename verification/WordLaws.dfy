/**
 * What the operations on words compute, as numbers and bit by bit: the ones that the simulator and the reference
 * machine share, so that their agreement does not say it.
 */
module WordLaws {
  import opened Words

  const WORD_RANGE: nat := 0x1_0000_0000

  predicate Bit(x: bv32, i: bv5) {
    (x >> i) & 1 == 1
  }

  function Pow2(k: bv5): nat {
    if k == 0 then 1 else 2 * Pow2(k - 1)
  }

  function BitValue(x: bv32, i: bv5, value: nat): nat {
    if Bit(x, i) then value else 0
  }

  /** The number that bits 0 to `k` write in base two. */
  function Number(x: bv32, k: bv5): nat {
    (if k == 0 then 0 else Number(x, k - 1)) + BitValue(x, k, Pow2(k))
  }

  // A word as a number

  lemma NextTwo(x: bv32, k: bv5, power: nat)
    requires 1 <= k <= 30 && Pow2(k) == power
    ensures Pow2(k + 1) == 2 * power
    ensures Number(x, k + 1) == Number(x, k - 1) + BitValue(x, k, power) + BitValue(x, k + 1, 2 * power)
  {
    hide BitValue;
    assert Number(x, k + 1) == Number(x, k) + BitValue(x, k + 1, Pow2(k + 1));
  }

  lemma NextFour(x: bv32, k: bv5, power: nat)
    requires 1 <= k <= 28 && Pow2(k) == power
    ensures Pow2(k + 3) == 8 * power
    ensures Number(x, k + 3) ==
            Number(x, k - 1) + BitValue(x, k, power) + BitValue(x, k + 1, 2 * power)
            + BitValue(x, k + 2, 4 * power) + BitValue(x, k + 3, 8 * power)
  {
    hide BitValue, Number;
    NextTwo(x, k, power);
    assert Pow2(k + 2) == 2 * Pow2(k + 1);
    NextTwo(x, k + 2, 4 * power);
  }

  lemma NextByte(x: bv32, k: bv5, power: nat)
    requires 1 <= k <= 24 && Pow2(k) == power
    ensures k < 24 ==> Pow2(k + 8) == 256 * power
    ensures Number(x, k + 7) ==
            Number(x, k - 1) + BitValue(x, k, power) + BitValue(x, k + 1, 2 * power)
            + BitValue(x, k + 2, 4 * power) + BitValue(x, k + 3, 8 * power)
            + BitValue(x, k + 4, 16 * power) + BitValue(x, k + 5, 32 * power)
            + BitValue(x, k + 6, 64 * power) + BitValue(x, k + 7, 128 * power)
  {
    hide BitValue, Number;
    NextFour(x, k, power);
    assert Pow2(k + 4) == 2 * Pow2(k + 3);
    NextFour(x, k + 4, 16 * power);
    assert k < 24 ==> Pow2(k + 8) == 2 * Pow2(k + 7);
  }

  lemma FirstByte(x: bv32)
    ensures (x & 0xFF) as nat ==
            BitValue(x, 0, 1) + BitValue(x, 1, 2) + BitValue(x, 2, 4) + BitValue(x, 3, 8)
            + BitValue(x, 4, 0x10) + BitValue(x, 5, 0x20) + BitValue(x, 6, 0x40) + BitValue(x, 7, 0x80)
  {
  }

  lemma SecondByte(x: bv32)
    ensures (x & 0xFFFF) as nat ==
            BitValue(x, 8, 0x100) + BitValue(x, 9, 0x200) + BitValue(x, 10, 0x400) + BitValue(x, 11, 0x800)
            + BitValue(x, 12, 0x1000) + BitValue(x, 13, 0x2000) + BitValue(x, 14, 0x4000) + BitValue(x, 15, 0x8000)
            + ((x & 0xFF) as nat)
  {
  }

  lemma ThirdByte(x: bv32)
    ensures (x & 0xFF_FFFF) as nat ==
            BitValue(x, 16, 0x10000) + BitValue(x, 17, 0x20000) + BitValue(x, 18, 0x40000) + BitValue(x, 19, 0x80000)
            + BitValue(x, 20, 0x100000) + BitValue(x, 21, 0x200000)
            + BitValue(x, 22, 0x400000) + BitValue(x, 23, 0x800000)
            + ((x & 0xFFFF) as nat)
  {
  }

  lemma FourthByte(x: bv32)
    ensures x as nat ==
            BitValue(x, 24, 0x1000000) + BitValue(x, 25, 0x2000000)
            + BitValue(x, 26, 0x4000000) + BitValue(x, 27, 0x8000000)
            + BitValue(x, 28, 0x10000000) + BitValue(x, 29, 0x20000000)
            + BitValue(x, 30, 0x40000000) + BitValue(x, 31, 0x80000000)
            + ((x & 0xFF_FFFF) as nat)
  {
  }

  lemma FirstNumber(x: bv32)
    ensures (x & 0xFF) as nat == Number(x, 7) && Pow2(8) == 0x100
  {
    hide BitValue;
    FirstByte(x);
    assert Pow2(0) == 1 && Pow2(1) == 2 && Number(x, 0) == BitValue(x, 0, 1);
    NextFour(x, 1, 2);
    assert Pow2(5) == 2 * Pow2(4);
    NextTwo(x, 5, 32);
    assert Pow2(7) == 2 * Pow2(6) && Pow2(8) == 2 * Pow2(7);
    assert Number(x, 7) == Number(x, 6) + BitValue(x, 7, 128);
  }

  lemma SecondNumber(x: bv32)
    ensures (x & 0xFFFF) as nat == Number(x, 15) && Pow2(16) == 0x1_0000
  {
    hide BitValue, Number, Pow2;
    FirstNumber(x);
    NextByte(x, 8, 0x100);
    SecondByte(x);
  }

  lemma ThirdNumber(x: bv32)
    ensures (x & 0xFF_FFFF) as nat == Number(x, 23) && Pow2(24) == 0x100_0000
  {
    hide BitValue, Number, Pow2;
    SecondNumber(x);
    NextByte(x, 16, 0x1_0000);
    ThirdByte(x);
  }

  lemma IsNumber(x: bv32)
    ensures NumberOf(x) == Number(x, 31)
  {
    hide BitValue, Number, Pow2;
    ThirdNumber(x);
    NextByte(x, 24, 0x100_0000);
    FourthByte(x);
  }

  /** A word is the number that its bits write in base two. */
  lemma IndexIsNumber(x: Word)
    ensures Index(x) == Number(x.bits, 31)
  {
    hide Number, NumberOf;
    IsNumber(x.bits);
  }

  lemma WordOfNumber(x: bv32)
    ensures NumberOf(x) as bv32 == x
  {
  }

  lemma NumberIsInjective(x: bv32, y: bv32)
    requires NumberOf(x) == NumberOf(y)
    ensures x == y
  {
    WordOfNumber(x);
    WordOfNumber(y);
    hide NumberOf;
  }

  /** Different words are different numbers. */
  lemma IndexIsInjective(x: Word, y: Word)
    requires Index(x) == Index(y)
    ensures x == y
  {
    hide NumberOf;
    NumberIsInjective(x.bits, y.bits);
  }

  lemma BelowRange(x: bv32)
    ensures NumberOf(x) < WORD_RANGE
  {
  }

  lemma LastPower()
    ensures Pow2(31) == 0x8000_0000
  {
    hide Number;
    ThirdNumber(0);
    NextFour(0, 24, 0x100_0000);
    assert Pow2(28) == 2 * Pow2(27);
    NextFour(0, 28, 0x1000_0000);
  }

  // Sums and differences

  predicate CarryInto(x: bv32, y: bv32, k: bv5) {
    (Bit(x, k) != Bit(y, k)) != Bit(x + y, k)
  }

  predicate CarryOutOf(x: bv32, y: bv32, k: bv5) {
    (Bit(x, k) && Bit(y, k)) || (CarryInto(x, y, k) && (Bit(x, k) || Bit(y, k)))
  }

  lemma NextCarry(x: bv32, y: bv32, k: bv5)
    requires k > 0
    ensures CarryInto(x, y, k) == CarryOutOf(x, y, k - 1)
  {
  }

  lemma FirstCarry(x: bv32, y: bv32)
    ensures !CarryInto(x, y, 0)
  {
  }

  lemma {:induction false} SumUpTo(x: bv32, y: bv32, k: bv5)
    ensures Number(x, k) + Number(y, k) == Number(x + y, k) + (if CarryOutOf(x, y, k) then 2 * Pow2(k) else 0)
  {
    hide Bit;
    if k == 0 {
      FirstCarry(x, y);
    } else {
      SumUpTo(x, y, k - 1);
      NextCarry(x, y, k);
    }
  }

  predicate BorrowInto(x: bv32, y: bv32, k: bv5) {
    (Bit(x, k) != Bit(y, k)) != Bit(x - y, k)
  }

  predicate BorrowOutOf(x: bv32, y: bv32, k: bv5) {
    (!Bit(x, k) && Bit(y, k)) || (BorrowInto(x, y, k) && Bit(x, k) == Bit(y, k))
  }

  lemma NextBorrow(x: bv32, y: bv32, k: bv5)
    requires k > 0
    ensures BorrowInto(x, y, k) == BorrowOutOf(x, y, k - 1)
  {
  }

  lemma FirstBorrow(x: bv32, y: bv32)
    ensures !BorrowInto(x, y, 0)
  {
  }

  lemma {:induction false} DifferenceUpTo(x: bv32, y: bv32, k: bv5)
    ensures Number(x, k) - Number(y, k) == Number(x - y, k) - (if BorrowOutOf(x, y, k) then 2 * Pow2(k) else 0)
  {
    hide Bit;
    if k == 0 {
      FirstBorrow(x, y);
    } else {
      DifferenceUpTo(x, y, k - 1);
      NextBorrow(x, y, k);
    }
  }

  lemma SumNumber(x: bv32, y: bv32)
    ensures var sum := NumberOf(Sum(x, y)); var exact := NumberOf(x) + NumberOf(y);
            sum == exact || sum == exact - WORD_RANGE
  {
    SumUpTo(x, y, 31);
    LastPower();
    hide Number, Pow2, Bit, NumberOf, CarryOutOf;
    IsNumber(x);
    IsNumber(y);
    IsNumber(Sum(x, y));
  }

  lemma DifferenceNumber(x: bv32, y: bv32)
    ensures var difference := NumberOf(Difference(x, y)); var exact := NumberOf(x) - NumberOf(y);
            difference == exact || difference == exact + WORD_RANGE
  {
    DifferenceUpTo(x, y, 31);
    LastPower();
    hide Number, Pow2, Bit, NumberOf, BorrowOutOf;
    IsNumber(x);
    IsNumber(y);
    IsNumber(Difference(x, y));
  }

  /** Addition is addition modulo 2^32. */
  lemma PlusAddsModulo(x: Word, y: Word)
    ensures Index(Plus(x, y)) == (Index(x) + Index(y)) % WORD_RANGE
  {
    hide NumberOf, Sum;
    SumNumber(x.bits, y.bits);
    BelowRange(x.bits);
    BelowRange(y.bits);
    BelowRange(Sum(x.bits, y.bits));
  }

  /** Subtraction is subtraction modulo 2^32. */
  lemma MinusSubtractsModulo(x: Word, y: Word)
    ensures Index(Minus(x, y)) == (Index(x) - Index(y)) % WORD_RANGE
  {
    hide NumberOf, Difference;
    DifferenceNumber(x.bits, y.bits);
    BelowRange(x.bits);
    BelowRange(y.bits);
    BelowRange(Difference(x.bits, y.bits));
  }

  /** The next instruction in memory order is four bytes on. */
  lemma PlusFourAdds(pc: Word)
    ensures Index(PlusFour(pc)) == (Index(pc) + 4) % WORD_RANGE
  {
    assert NumberOf(4) == 4;
    hide NumberOf, Sum;
    assert PlusFour(pc) == Plus(pc, Word(4));
    PlusAddsModulo(pc, Word(4));
  }

  // Order

  /** Comparing the words is comparing the numbers. */
  predicate NumbersCompare(x: bv32, y: bv32) {
    Less(x, y) <==> NumberOf(x) < NumberOf(y)
  }

  lemma BytesCompare(x: bv32, y: bv32)
    requires x < 0x100 && y < 0x100
    ensures NumbersCompare(x, y) && (x == y <==> NumberOf(x) == NumberOf(y))
  {
  }

  lemma LowBytesCompare(x: bv32, y: bv32)
    ensures NumbersCompare(x & 0xFF, y & 0xFF)
  {
    hide NumbersCompare;
    BytesCompare(x & 0xFF, y & 0xFF);
  }

  lemma DigitsCompare(x: bv32, y: bv32)
    ensures var u, v := (x >> 8) & 0xFF, (y >> 8) & 0xFF;
            NumbersCompare(u, v) && (u == v <==> NumberOf(u) == NumberOf(v))
  {
    hide NumbersCompare, NumberOf;
    BytesCompare((x >> 8) & 0xFF, (y >> 8) & 0xFF);
  }

  /** Words compare by an upper digit first, of value `weight` each, and by what is below it then. */
  lemma CompareByDigit(x: bv32, y: bv32, upperX: bv32, upperY: bv32, lowerX: bv32, lowerY: bv32, weight: nat)
    requires Less(x, y) <==> Less(upperX, upperY) || (upperX == upperY && Less(lowerX, lowerY))
    requires NumberOf(x) == weight * NumberOf(upperX) + NumberOf(lowerX) && NumberOf(lowerX) < weight
    requires NumberOf(y) == weight * NumberOf(upperY) + NumberOf(lowerY) && NumberOf(lowerY) < weight
    requires NumbersCompare(upperX, upperY) && (upperX == upperY <==> NumberOf(upperX) == NumberOf(upperY))
    requires NumbersCompare(lowerX, lowerY)
    ensures NumbersCompare(x, y)
  {
    hide NumberOf, Less;
    CompareDigits(NumberOf(upperX), NumberOf(upperY), NumberOf(lowerX), NumberOf(lowerY), weight);
  }

  lemma CompareDigits(u: nat, v: nat, low: nat, high: nat, weight: nat)
    requires low < weight && high < weight
    ensures weight * u + low < weight * v + high <==> u < v || (u == v && low < high)
  {
    if u < v {
      assert weight * (u + 1) <= weight * v;
    } else if v < u {
      assert weight * (v + 1) <= weight * u;
    }
  }

  lemma FirstOrder(x: bv32, y: bv32)
    ensures Less(x & 0xFFFF, y & 0xFFFF) <==>
              || Less((x >> 8) & 0xFF, (y >> 8) & 0xFF)
              || ((x >> 8) & 0xFF == (y >> 8) & 0xFF && Less(x & 0xFF, y & 0xFF))
  {
  }

  lemma SecondOrder(x: bv32, y: bv32)
    ensures Less(x & 0xFF_FFFF, y & 0xFF_FFFF) <==>
              || Less((x >> 16) & 0xFF, (y >> 16) & 0xFF)
              || ((x >> 16) & 0xFF == (y >> 16) & 0xFF && Less(x & 0xFFFF, y & 0xFFFF))
  {
  }

  lemma ThirdOrder(x: bv32, y: bv32)
    ensures Less(x, y) <==>
              || Less((x >> 24) & 0xFF, (y >> 24) & 0xFF)
              || ((x >> 24) & 0xFF == (y >> 24) & 0xFF && Less(x & 0xFF_FFFF, y & 0xFF_FFFF))
  {
  }

  lemma LowPartsAreSmall(x: bv32)
    ensures NumberOf(x & 0xFF) < 0x100 && NumberOf(x & 0xFFFF) < 0x1_0000 && NumberOf(x & 0xFF_FFFF) < 0x100_0000
  {
  }

  lemma FirstDigit(x: bv32)
    ensures NumberOf(x & 0xFFFF) == 0x100 * NumberOf((x >> 8) & 0xFF) + NumberOf(x & 0xFF)
  {
  }

  lemma SecondDigit(x: bv32)
    ensures NumberOf(x & 0xFF_FFFF) == 0x1_0000 * NumberOf((x >> 16) & 0xFF) + NumberOf(x & 0xFFFF)
  {
  }

  lemma ThirdDigit(x: bv32)
    ensures NumberOf(x) == 0x100_0000 * NumberOf((x >> 24) & 0xFF) + NumberOf(x & 0xFF_FFFF)
  {
  }

  lemma FirstCompare(x: bv32, y: bv32)
    ensures NumbersCompare(x & 0xFFFF, y & 0xFFFF)
  {
    hide NumberOf, Less, NumbersCompare;
    DigitsCompare(x, y);
    LowBytesCompare(x, y);
    FirstOrder(x, y);
    FirstDigit(x);
    FirstDigit(y);
    LowPartsAreSmall(x);
    LowPartsAreSmall(y);
    CompareByDigit(x & 0xFFFF, y & 0xFFFF, (x >> 8) & 0xFF, (y >> 8) & 0xFF, x & 0xFF, y & 0xFF, 0x100);
  }

  lemma SecondCompare(x: bv32, y: bv32)
    ensures NumbersCompare(x & 0xFF_FFFF, y & 0xFF_FFFF)
  {
    hide NumberOf, Less, NumbersCompare;
    BytesCompare((x >> 16) & 0xFF, (y >> 16) & 0xFF);
    FirstCompare(x, y);
    SecondOrder(x, y);
    SecondDigit(x);
    SecondDigit(y);
    LowPartsAreSmall(x);
    LowPartsAreSmall(y);
    CompareByDigit(x & 0xFF_FFFF, y & 0xFF_FFFF, (x >> 16) & 0xFF, (y >> 16) & 0xFF, x & 0xFFFF, y & 0xFFFF,
                   0x1_0000);
  }

  lemma ThirdCompare(x: bv32, y: bv32)
    ensures NumbersCompare(x, y)
  {
    hide NumberOf, Less, NumbersCompare;
    BytesCompare((x >> 24) & 0xFF, (y >> 24) & 0xFF);
    SecondCompare(x, y);
    ThirdOrder(x, y);
    ThirdDigit(x);
    ThirdDigit(y);
    LowPartsAreSmall(x);
    LowPartsAreSmall(y);
    CompareByDigit(x, y, (x >> 24) & 0xFF, (y >> 24) & 0xFF, x & 0xFF_FFFF, y & 0xFF_FFFF, 0x100_0000);
  }

  /** The unsigned comparison compares numbers. */
  lemma BelowComparesNumbers(x: Word, y: Word)
    ensures Below(x, y) <==> Index(x) < Index(y)
  {
    hide Less, NumberOf;
    ThirdCompare(x.bits, y.bits);
  }

  // Bit by bit

  /** Words with the same bits are the same word. */
  lemma BitsDetermineWord(x: Word, y: Word)
    requires forall i: bv5 :: Bit(x.bits, i) == Bit(y.bits, i)
    ensures x == y
  {
    hide Index, Bit;
    SameNumber(x.bits, y.bits, 31);
    IndexIsNumber(x);
    IndexIsNumber(y);
    IndexIsInjective(x, y);
  }

  lemma {:induction false} SameNumber(x: bv32, y: bv32, k: bv5)
    requires forall i: bv5 :: Bit(x, i) == Bit(y, i)
    ensures Number(x, k) == Number(y, k)
  {
    hide Bit;
    if k > 0 {
      SameNumber(x, y, k - 1);
    }
  }

  lemma AndBits(x: bv32, y: bv32, i: bv5)
    ensures Bit(x & y, i) == (Bit(x, i) && Bit(y, i))
  {
  }

  lemma OrBits(x: bv32, y: bv32, i: bv5)
    ensures Bit(x | y, i) == (Bit(x, i) || Bit(y, i))
  {
  }

  lemma XorBits(x: bv32, y: bv32, i: bv5)
    ensures Bit(x ^ y, i) == (Bit(x, i) != Bit(y, i))
  {
  }

  lemma ConjunctionBits(x: bv32, y: bv32, i: bv5)
    ensures Bit(Conjunction(x, y), i) == (Bit(x, i) && Bit(y, i))
  {
    hide Bit;
    AndBits(x, y, i);
  }

  lemma DisjunctionBits(x: bv32, y: bv32, i: bv5)
    ensures Bit(Disjunction(x, y), i) == (Bit(x, i) || Bit(y, i))
  {
    hide Bit;
    OrBits(x, y, i);
  }

  lemma ExclusiveDisjunctionBits(x: bv32, y: bv32, i: bv5)
    ensures Bit(ExclusiveDisjunction(x, y), i) == (Bit(x, i) != Bit(y, i))
  {
    hide Bit;
    XorBits(x, y, i);
  }

  /** The logical operations act bit by bit. */
  lemma LogicActsOnBits(x: Word, y: Word, i: bv5)
    ensures Bit(BitAnd(x, y).bits, i) <==> Bit(x.bits, i) && Bit(y.bits, i)
    ensures Bit(BitOr(x, y).bits, i) <==> Bit(x.bits, i) || Bit(y.bits, i)
    ensures Bit(BitXor(x, y).bits, i) <==> Bit(x.bits, i) != Bit(y.bits, i)
  {
    hide Bit, Conjunction, Disjunction, ExclusiveDisjunction;
    ConjunctionBits(x.bits, y.bits, i);
    DisjunctionBits(x.bits, y.bits, i);
    ExclusiveDisjunctionBits(x.bits, y.bits, i);
  }

  lemma ShiftedUp(x: bv32, amount: bv5, i: bv5)
    requires amount <= i
    ensures Bit(x << amount, i) == Bit(x, i - amount)
  {
  }

  lemma FilledBelow(x: bv32, amount: bv5, i: bv5)
    requires i < amount
    ensures !Bit(x << amount, i)
  {
  }

  /** A left shift moves every bit up and fills with zeros. */
  lemma LeftShiftMovesBits(x: bv32, amount: bv5, i: bv5)
    ensures Bit(ShiftLeft(x, amount), i) <==> amount <= i && Bit(x, i - amount)
  {
    hide Bit;
    if amount <= i {
      ShiftedUp(x, amount, i);
    } else {
      FilledBelow(x, amount, i);
    }
  }

  lemma ShiftedDown(x: bv32, amount: bv5, i: bv5)
    requires i <= 31 - amount
    ensures Bit(x >> amount, i) == Bit(x, i + amount)
  {
  }

  lemma FilledAbove(x: bv32, amount: bv5, i: bv5)
    requires i > 31 - amount
    ensures !Bit(x >> amount, i)
  {
  }

  /** A right shift moves every bit down and fills with zeros. */
  lemma RightShiftMovesBits(x: bv32, amount: bv5, i: bv5)
    ensures Bit(ShiftRight(x, amount), i) <==> i <= 31 - amount && Bit(x, i + amount)
  {
    hide Bit;
    if i <= 31 - amount {
      ShiftedDown(x, amount, i);
    } else {
      FilledAbove(x, amount, i);
    }
  }
}
