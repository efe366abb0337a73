/**
 * What instructions compute, as numbers: the ALU, the branch decisions and the memory accesses of the simulator against
 * integer arithmetic, without the operations on words that it shares with the reference machine.
 */
module Numbers {
  import opened Words
  import opened WordLaws
  import opened Memory
  import opened Decoder
  import opened Instruction
  import opened Stages
  import opened Isa
  import opened Datapath

  /** The number a word is in two's complement. */
  function Signed(x: Word): int {
    if Index(x) < 0x8000_0000 then Index(x) else Index(x) - WORD_RANGE
  }

  lemma HalfOfRange()
    ensures Index(Word(0x8000_0000)) == 0x8000_0000
  {
  }

  lemma NegativeNumbers(x: Word)
    ensures IsNegative(x.bits) <==> Index(x) >= 0x8000_0000
  {
    assert IsNegative(x.bits) == !Below(x, Word(0x8000_0000));
    hide Below, Index, IsNegative;
    HalfOfRange();
    BelowComparesNumbers(x, Word(0x8000_0000));
  }

  /** The signed comparison compares numbers in two's complement. */
  lemma SignedComparison(x: Word, y: Word)
    ensures LessSigned(x, y) <==> Signed(x) < Signed(y)
  {
    SignedComparisonAgrees(x, y);
    hide LessSigned, IsNegative, NumberOf, Less;
    NegativeNumbers(x);
    NegativeNumbers(y);
    BelowRange(x.bits);
    BelowRange(y.bits);
    BelowComparesNumbers(x, y);
  }

  // Shifts with copies of the sign bit

  lemma SignIsTopBit(x: bv32)
    ensures IsNegative(x) == Bit(x, 31)
  {
  }

  lemma AllOnes(i: bv5)
    ensures Bit(0xFFFF_FFFF, i)
  {
  }

  function Filled(kept: bv32, mask: bv32): bv32 {
    kept | !mask
  }

  lemma FilledBits(kept: bv32, mask: bv32, i: bv5)
    ensures Bit(kept | !mask, i) == (Bit(kept, i) || !Bit(mask, i))
  {
  }

  lemma BitsOfFilled(kept: bv32, mask: bv32, i: bv5)
    ensures Bit(Filled(kept, mask), i) == (Bit(kept, i) || !Bit(mask, i))
  {
    hide Bit;
    FilledBits(kept, mask, i);
  }

  lemma NegativeIsFilled(x: bv32, amount: bv5)
    requires IsNegative(x)
    ensures SignFilledShift(x, amount) == Filled(ShiftRight(x, amount), ShiftRight(0xFFFF_FFFF, amount))
  {
    hide ShiftRight, IsNegative;
  }

  /** The arithmetic shift moves every bit down and fills with the top one. */
  lemma ArithmeticShiftMovesBits(x: bv32, amount: bv5, i: bv5)
    ensures Bit(SignFilledShift(x, amount), i) == if i <= 31 - amount then Bit(x, i + amount) else Bit(x, 31)
  {
    hide Bit, ShiftRight, IsNegative, SignFilledShift, Filled;
    SignIsTopBit(x);
    RightShiftMovesBits(x, amount, i);
    if IsNegative(x) {
      NegativeIsFilled(x, amount);
      BitsOfFilled(ShiftRight(x, amount), ShiftRight(0xFFFF_FFFF, amount), i);
      RightShiftMovesBits(0xFFFF_FFFF, amount, i);
      if i <= 31 - amount {
        AllOnes(i + amount);
      }
    } else {
      PositiveFill(x, amount);
    }
  }

  // The ALU

  /** The low five bits. */
  function LowFive(y: bv32): bv5 {
    (y & 0x1F) as bv5
  }

  lemma ShiftsByLowFive(y: Word)
    ensures ShiftAmount(y) == LowFive(y.bits)
  {
  }

  /** Every bit has moved up, and zeros have come in below. */
  ghost predicate IsShiftedUp(x: bv32, amount: bv5, shifted: bv32) {
    forall i: bv5 :: Bit(shifted, i) == (amount <= i && Bit(x, i - amount))
  }

  /** Every bit has moved down, and copies of `fill` have come in above. */
  ghost predicate IsShiftedDown(x: bv32, amount: bv5, fill: bool, shifted: bv32) {
    forall i: bv5 :: Bit(shifted, i) == if i <= 31 - amount then Bit(x, i + amount) else fill
  }

  /** What `kind` computes from `x` and `y`, as numbers or bit by bit. */
  ghost predicate IsResult(kind: InstructionKind, x: Word, y: Word, result: Word) {
    var amount := LowFive(y.bits);
    match kind
    case Add | Addi => Index(result) == (Index(x) + Index(y)) % WORD_RANGE
    case Sub => Index(result) == (Index(x) - Index(y)) % WORD_RANGE
    case And | Andi => forall i: bv5 :: Bit(result.bits, i) == (Bit(x.bits, i) && Bit(y.bits, i))
    case Or | Ori => forall i: bv5 :: Bit(result.bits, i) == (Bit(x.bits, i) || Bit(y.bits, i))
    case Xor | Xori => forall i: bv5 :: Bit(result.bits, i) == (Bit(x.bits, i) != Bit(y.bits, i))
    case Sll | Slli => IsShiftedUp(x.bits, amount, result.bits)
    case Srl | Srli => IsShiftedDown(x.bits, amount, false, result.bits)
    case Sra | Srai => IsShiftedDown(x.bits, amount, Bit(x.bits, 31), result.bits)
    case Slt | Slti => Index(result) == if Signed(x) < Signed(y) then 1 else 0
    case Sltu | Sltiu => Index(result) == if Index(x) < Index(y) then 1 else 0
    case _ => true
  }

  lemma LogicComputes(kind: InstructionKind, x: Word, y: Word)
    requires kind.And? || kind.Andi? || kind.Or? || kind.Ori? || kind.Xor? || kind.Xori?
    ensures IsResult(kind, x, y, Compute(kind, x, y))
  {
    hide Bit, BitAnd, BitOr, BitXor, Index, Signed;
    forall i: bv5
      ensures Bit(BitAnd(x, y).bits, i) == (Bit(x.bits, i) && Bit(y.bits, i))
      ensures Bit(BitOr(x, y).bits, i) == (Bit(x.bits, i) || Bit(y.bits, i))
      ensures Bit(BitXor(x, y).bits, i) == (Bit(x.bits, i) != Bit(y.bits, i))
    {
      LogicActsOnBits(x, y, i);
    }
  }

  lemma ShiftsCompute(kind: InstructionKind, x: Word, y: Word)
    requires kind.Sll? || kind.Slli? || kind.Srl? || kind.Srli? || kind.Sra? || kind.Srai?
    ensures IsResult(kind, x, y, Compute(kind, x, y))
  {
    hide IsShiftedUp, IsShiftedDown, Bit, ShiftLeft, ShiftRight, SignFilledShift, ShiftAmount, LowFive, Index, Signed;
    ShiftsByLowFive(y);
    LeftShift(x.bits, ShiftAmount(y));
    RightShifts(x.bits, ShiftAmount(y));
  }

  lemma LeftShift(x: bv32, amount: bv5)
    ensures IsShiftedUp(x, amount, ShiftLeft(x, amount))
  {
    hide Bit, ShiftLeft;
    forall i: bv5
      ensures Bit(ShiftLeft(x, amount), i) == (amount <= i && Bit(x, i - amount))
    {
      LeftShiftMovesBits(x, amount, i);
    }
  }

  lemma RightShifts(x: bv32, amount: bv5)
    ensures IsShiftedDown(x, amount, false, ShiftRight(x, amount))
    ensures IsShiftedDown(x, amount, Bit(x, 31), SignFilledShift(x, amount))
  {
    hide Bit, ShiftRight, SignFilledShift;
    forall i: bv5
      ensures Bit(ShiftRight(x, amount), i) == if i <= 31 - amount then Bit(x, i + amount) else false
      ensures Bit(SignFilledShift(x, amount), i) == if i <= 31 - amount then Bit(x, i + amount) else Bit(x, 31)
    {
      RightShiftMovesBits(x, amount, i);
      ArithmeticShiftMovesBits(x, amount, i);
    }
  }

  lemma ZeroAndOne()
    ensures Index(Word(1)) == 1 && Index(ZERO) == 0
  {
  }

  lemma SumsAndComparisonsCompute(kind: InstructionKind, x: Word, y: Word)
    requires kind.Add? || kind.Addi? || kind.Sub? || kind.Slt? || kind.Slti? || kind.Sltu? || kind.Sltiu?
    ensures IsResult(kind, x, y, Compute(kind, x, y))
  {
    ZeroAndOne();
    hide Bit, Plus, Minus, Below, SignedLess, Index, Signed;
    PlusAddsModulo(x, y);
    MinusSubtractsModulo(x, y);
    SignedComparison(x, y);
    SignedComparisonAgrees(x, y);
    BelowComparesNumbers(x, y);
  }

  /** Every arithmetic instruction computes its number: sums modulo 2^32, bits, shifted bits and comparisons. */
  lemma AluComputes(kind: InstructionKind, x: Word, y: Word)
    requires ClassOf(kind).RegAlu? || ClassOf(kind).ImmAlu?
    ensures IsResult(kind, x, y, ExecuteAlu(AluOpOf(kind), x, y))
  {
    hide ExecuteAlu, AluOpOf, Compute, IsResult;
    AluAgrees(kind, x, y);
    match kind {
      case Add | Addi | Sub | Slt | Slti | Sltu | Sltiu => SumsAndComparisonsCompute(kind, x, y);
      case And | Andi | Or | Ori | Xor | Xori => LogicComputes(kind, x, y);
      case Sll | Slli | Srl | Srli | Sra | Srai => ShiftsCompute(kind, x, y);
      case _ =>
    }
  }

  /** When each branch is taken, by the numbers it compares. */
  predicate IsTaken(kind: InstructionKind, x: Word, y: Word) {
    match kind
    case Beq => Index(x) == Index(y)
    case Bne => Index(x) != Index(y)
    case Blt => Signed(x) < Signed(y)
    case Bge => Signed(x) >= Signed(y)
    case Bltu => Index(x) < Index(y)
    case Bgeu => Index(x) >= Index(y)
    case _ => false
  }

  lemma SameIndex(x: Word, y: Word)
    ensures x == y <==> Index(x) == Index(y)
  {
    hide Index;
    if Index(x) == Index(y) {
      IndexIsInjective(x, y);
    }
  }

  lemma BranchesCompareNumbers(kind: InstructionKind, x: Word, y: Word)
    requires ClassOf(kind).Branch?
    ensures EvaluateBranch(ConditionOf(kind), x, y) == IsTaken(kind, x, y)
  {
    hide Below, LessSigned, Index, Signed;
    SignedComparison(x, y);
    BelowComparesNumbers(x, y);
    SameIndex(x, y);
  }

  // Memory

  /** A word is the number its four bytes write in base 256. */
  lemma NumberOfBytes(x: bv32)
    ensures NumberOf(x) == NumberOf(x & 0xFF) + 0x100 * NumberOf((x >> 8) & 0xFF)
                           + 0x1_0000 * NumberOf((x >> 16) & 0xFF) + 0x100_0000 * NumberOf((x >> 24) & 0xFF)
  {
    hide NumberOf;
    FirstDigit(x);
    SecondDigit(x);
    ThirdDigit(x);
  }

  lemma NumberOfByte(b: Byte)
    ensures NumberOf(WidenByte(b)) == b as nat
  {
  }

  lemma JoinedBytes(b0: Byte, b1: Byte, b2: Byte, b3: Byte)
    ensures var x := JoinFour(b0, b1, b2, b3);
            && x & 0xFF == WidenByte(b0) && (x >> 8) & 0xFF == WidenByte(b1)
            && (x >> 16) & 0xFF == WidenByte(b2) && (x >> 24) & 0xFF == WidenByte(b3)
  {
  }

  lemma JoinedNumber(b0: Byte, b1: Byte, b2: Byte, b3: Byte)
    ensures NumberOf(JoinFour(b0, b1, b2, b3))
         == (b0 as nat) + 0x100 * (b1 as nat) + 0x1_0000 * (b2 as nat) + 0x100_0000 * (b3 as nat)
  {
    hide NumberOf, JoinFour, WidenByte;
    NumberOfBytes(JoinFour(b0, b1, b2, b3));
    JoinedBytes(b0, b1, b2, b3);
    NumberOfByte(b0);
    NumberOfByte(b1);
    NumberOfByte(b2);
    NumberOfByte(b3);
  }

  lemma JoinedHalf(b0: Byte, b1: Byte)
    ensures WidenHalfWord(JoinTwo(b0, b1)) == JoinFour(b0, b1, 0, 0)
  {
  }

  /** A number of a byte or a half word, read in two's complement. */
  function TwosComplement(number: nat, half: nat): int {
    if number < half then number else number - 2 * half
  }

  lemma FilledByte(value: bv32)
    requires value < 0x100
    ensures SignExtend(value, 8) == if value < 0x80 then value else value | 0xFFFF_FF00
    ensures NumberOf(value | 0xFFFF_FF00) == NumberOf(value) + 0xFFFF_FF00
    ensures value < 0x80 <==> NumberOf(value) < 0x80
  {
  }

  lemma FilledHalfWord(value: bv32)
    requires value < 0x1_0000
    ensures NumberOf(value | 0xFFFF_0000) == NumberOf(value) + 0xFFFF_0000
  {
  }

  lemma SmallHalfWord(value: bv32)
    requires value < 0x1_0000
    ensures value < 0x8000 <==> NumberOf(value) < 0x8000
  {
  }

  lemma SignedByte(value: bv32)
    requires value < 0x100
    ensures Signed(Word(SignExtend(value, 8))) == TwosComplement(NumberOf(value), 0x80)
  {
    hide SignExtend, NumberOf;
    FilledByte(value);
    ByteRange(value);
  }

  lemma ByteRange(value: bv32)
    ensures value < 0x100 ==> NumberOf(value) < 0x100
    ensures value < 0x1_0000 ==> NumberOf(value) < 0x1_0000
  {
  }

  lemma SignedHalfWord(value: bv32)
    requires value < 0x1_0000
    ensures Signed(Word(SignExtend(value, 16))) == TwosComplement(NumberOf(value), 0x8000)
  {
    hide SignExtend, NumberOf;
    FilledHalfWord(value);
    SmallHalfWord(value);
    ByteRange(value);
    if value < 0x8000 {
      PositiveHalfWord(value);
    } else {
      NegativeHalfWord(value);
    }
  }

  /** What `kind` loads from the bytes at `a`. */
  predicate IsLoaded(kind: InstructionKind, memory: seq<Byte>, a: nat, value: Word)
    requires a + AccessBytes(kind) <= |memory|
  {
    match kind
    case Lb => Signed(value) == TwosComplement(memory[a] as nat, 0x80)
    case Lbu => Index(value) == memory[a] as nat
    case Lh => Signed(value) == TwosComplement((memory[a] as nat) + 0x100 * (memory[a + 1] as nat), 0x8000)
    case Lhu => Index(value) == (memory[a] as nat) + 0x100 * (memory[a + 1] as nat)
    case Lw =>
      Index(value) == (memory[a] as nat) + 0x100 * (memory[a + 1] as nat)
                      + 0x1_0000 * (memory[a + 2] as nat) + 0x100_0000 * (memory[a + 3] as nat)
    case _ => true
  }

  lemma ByteLoad(memory: seq<Byte>, address: Word)
    requires InBounds(|memory|, address, 1)
    ensures var value := WidenByte(ReadU8(memory, address));
            value < 0x100 && NumberOf(value) == memory[Index(address)] as nat
  {
    NumberOfByte(memory[Index(address)]);
  }

  lemma HalfWordLoad(memory: seq<Byte>, address: Word)
    requires InBounds(|memory|, address, 2)
    ensures var value, a := WidenHalfWord(ReadU16(memory, address)), Index(address);
            value < 0x1_0000 && NumberOf(value) == (memory[a] as nat) + 0x100 * (memory[a + 1] as nat)
  {
    hide Index, NumberOf, WidenHalfWord, JoinTwo, JoinFour;
    var a := Index(address);
    HalfWordIsSmall(ReadU16(memory, address));
    JoinedHalf(memory[a], memory[a + 1]);
    JoinedNumber(memory[a], memory[a + 1], 0, 0);
  }

  lemma WordLoad(memory: seq<Byte>, address: Word)
    requires InBounds(|memory|, address, 4)
    ensures var a := Index(address);
            NumberOf(ReadU32(memory, address)) ==
              (memory[a] as nat) + 0x100 * (memory[a + 1] as nat)
              + 0x1_0000 * (memory[a + 2] as nat) + 0x100_0000 * (memory[a + 3] as nat)
  {
    hide Index, NumberOf, JoinFour;
    var a := Index(address);
    JoinedNumber(memory[a], memory[a + 1], memory[a + 2], memory[a + 3]);
  }

  lemma ByteLoaded(memory: seq<Byte>, address: Word, kind: InstructionKind)
    requires (kind.Lb? || kind.Lbu?) && InBounds(|memory|, address, 1)
    ensures IsLoaded(kind, memory, Index(address), ReadMemory(memory, address, ControlOf(kind)))
  {
    hide NumberOf, SignExtend, WidenByte, ReadU8, Signed;
    ByteLoad(memory, address);
    SignedByte(WidenByte(ReadU8(memory, address)));
  }

  lemma HalfWordLoaded(memory: seq<Byte>, address: Word, kind: InstructionKind)
    requires (kind.Lh? || kind.Lhu?) && InBounds(|memory|, address, 2)
    ensures IsLoaded(kind, memory, Index(address), ReadMemory(memory, address, ControlOf(kind)))
  {
    hide NumberOf, SignExtend, WidenHalfWord, ReadU16, Signed;
    HalfWordLoad(memory, address);
    SignedHalfWord(WidenHalfWord(ReadU16(memory, address)));
  }

  lemma WordLoaded(memory: seq<Byte>, address: Word)
    requires InBounds(|memory|, address, 4)
    ensures IsLoaded(Lw, memory, Index(address), ReadMemory(memory, address, ControlOf(Lw)))
  {
    hide NumberOf, ReadU32, Signed;
    WordLoad(memory, address);
  }

  /** MEM loads the number that the bytes at the address write in base 256, or in two's complement. */
  lemma LoadsReadNumbers(memory: seq<Byte>, address: Word, kind: InstructionKind)
    requires ClassOf(kind).Load? && Index(address) + AccessBytes(kind) <= |memory|
    ensures WidthInBytes(ControlOf(kind).memoryWidth) == AccessBytes(kind)
    ensures IsLoaded(kind, memory, Index(address), ReadMemory(memory, address, ControlOf(kind)))
  {
    hide Index, IsLoaded, ReadMemory;
    match kind {
      case Lb | Lbu => ByteLoaded(memory, address, kind);
      case Lh | Lhu => HalfWordLoaded(memory, address, kind);
      case Lw => WordLoaded(memory, address);
      case _ =>
    }
  }

  /** What `kind` stores: the low-order digits of the value in base 256, the lowest at the lowest address. */
  ghost predicate IsStored(kind: InstructionKind, before: seq<Byte>, a: nat, value: Word, after: seq<Byte>)
    requires a + AccessBytes(kind) <= |before|
  {
    && |after| == |before|
    && (forall i: nat | i < |before| && !(a <= i < a + AccessBytes(kind)) :: after[i] == before[i])
    && match kind
       case Sb => after[a] as nat == Index(value) % 0x100
       case Sh => after[a] as nat == Index(value) % 0x100 && after[a + 1] as nat == Index(value) / 0x100 % 0x100
       case Sw =>
         && after[a] as nat == Index(value) % 0x100 && after[a + 1] as nat == Index(value) / 0x100 % 0x100
         && after[a + 2] as nat == Index(value) / 0x1_0000 % 0x100 && after[a + 3] as nat == Index(value) / 0x100_0000
       case _ => true
  }

  lemma ByteNumbers(x: bv32)
    ensures LowByte(x) as nat == NumberOf(x & 0xFF) && LowByte(x >> 8) as nat == NumberOf((x >> 8) & 0xFF)
    ensures LowByte(x >> 16) as nat == NumberOf((x >> 16) & 0xFF)
    ensures LowByte(x >> 24) as nat == NumberOf((x >> 24) & 0xFF)
  {
  }

  lemma DigitsOf(number: nat, d0: nat, d1: nat, d2: nat, d3: nat)
    requires d0 < 0x100 && d1 < 0x100 && d2 < 0x100 && d3 < 0x100
    requires number == d0 + 0x100 * d1 + 0x1_0000 * d2 + 0x100_0000 * d3
    ensures number % 0x100 == d0 && number / 0x100 % 0x100 == d1
    ensures number / 0x1_0000 % 0x100 == d2 && number / 0x100_0000 == d3
  {
  }

  lemma BytesAreDigits(x: bv32)
    ensures LowByte(x) as nat == NumberOf(x) % 0x100
    ensures LowByte(x >> 8) as nat == NumberOf(x) / 0x100 % 0x100
    ensures LowByte(x >> 16) as nat == NumberOf(x) / 0x1_0000 % 0x100
    ensures LowByte(x >> 24) as nat == NumberOf(x) / 0x100_0000
  {
    hide NumberOf, LowByte;
    NumberOfBytes(x);
    ByteNumbers(x);
    DigitsOf(NumberOf(x), LowByte(x) as nat, LowByte(x >> 8) as nat, LowByte(x >> 16) as nat, LowByte(x >> 24) as nat);
  }

  lemma ByteStored(memory: seq<Byte>, address: Word, value: Word)
    requires InBounds(|memory|, address, 1)
    ensures IsStored(Sb, memory, Index(address), value, WriteU8(memory, address, LowByte(value.bits)))
  {
    hide LowByte, NumberOf;
    BytesAreDigits(value.bits);
  }

  lemma HalfWordStored(memory: seq<Byte>, address: Word, value: Word)
    requires InBounds(|memory|, address, 2)
    ensures IsStored(Sh, memory, Index(address), value, WriteU16(memory, address, LowHalfWord(value.bits)))
  {
    hide LowByte, LowHalfWord, LowByteOfHalf, HighByteOfHalf, NumberOf;
    BytesAreDigits(value.bits);
    DigitsBelow(value.bits);
  }

  lemma WordWritten(memory: seq<Byte>, address: Word, x: bv32)
    requires InBounds(|memory|, address, 4)
    ensures var after, a := WriteU32(memory, address, x), Index(address);
            && |after| == |memory|
            && (forall i: nat | i < |memory| && !(a <= i < a + 4) :: after[i] == memory[i])
            && after[a] == LowByte(x) && after[a + 1] == LowByte(x >> 8)
            && after[a + 2] == LowByte(x >> 16) && after[a + 3] == LowByte(x >> 24)
  {
    hide LowByte, Index;
  }

  lemma DigitsWritten(memory: seq<Byte>, address: Word, x: bv32)
    requires InBounds(|memory|, address, 4)
    ensures var after, a := WriteU32(memory, address, x), Index(address);
            && |after| == |memory|
            && after[a] as nat == NumberOf(x) % 0x100 && after[a + 1] as nat == NumberOf(x) / 0x100 % 0x100
            && after[a + 2] as nat == NumberOf(x) / 0x1_0000 % 0x100 && after[a + 3] as nat == NumberOf(x) / 0x100_0000
  {
    hide LowByte, NumberOf, WriteU32;
    WordWritten(memory, address, x);
    BytesAreDigits(x);
  }

  lemma OthersKept(memory: seq<Byte>, address: Word, x: bv32)
    requires InBounds(|memory|, address, 4)
    ensures var after, a := WriteU32(memory, address, x), Index(address);
            |after| == |memory| && forall i: nat | i < |memory| && !(a <= i < a + 4) :: after[i] == memory[i]
  {
    hide LowByte, NumberOf, WriteU32;
    WordWritten(memory, address, x);
  }

  lemma WordStored(memory: seq<Byte>, address: Word, value: Word)
    requires InBounds(|memory|, address, 4)
    ensures IsStored(Sw, memory, Index(address), value, WriteU32(memory, address, value.bits))
  {
    hide NumberOf, WriteU32;
    DigitsWritten(memory, address, value.bits);
    OthersKept(memory, address, value.bits);
  }

  /** MEM stores just these digits. */
  lemma StoresWriteDigits(memory: seq<Byte>, address: Word, value: Word, kind: InstructionKind)
    requires ClassOf(kind).Store? && Index(address) + AccessBytes(kind) <= |memory|
    ensures WidthInBytes(ControlOf(kind).memoryWidth) == AccessBytes(kind)
    ensures IsStored(kind, memory, Index(address), value, WriteMemory(memory, address, value, ControlOf(kind)))
  {
    hide Index, IsStored, WriteU8, WriteU16, WriteU32, LowByte, LowHalfWord;
    match kind {
      case Sb => ByteStored(memory, address, value);
      case Sh => HalfWordStored(memory, address, value);
      case Sw => WordStored(memory, address, value);
      case _ =>
    }
  }
}
