/**
 * The datapath, driven by the decoded control signals, computes what the reference machine prescribes: the
 * arithmetic, the branch decisions, the loads and stores of every width, and the operands each kind depends on.
 */
module Datapath {
  import opened Words
  import opened Memory
  import opened PipelineRegisters
  import opened Decoder
  import opened Instruction
  import opened Stages
  import opened Isa

  // Arithmetic and branch decisions

  lemma TopBitFlipped(x: bv32, y: bv32)
    ensures Less(x ^ 0x8000_0000, y ^ 0x8000_0000) ==
            if IsNegative(x) != IsNegative(y) then IsNegative(x) else Less(x, y)
  {
  }

  /** In offset binary, numbers in two's complement are ordered as their patterns are. */
  lemma OffsetBinaryOrder(x: bv32, y: bv32)
    ensures Less(OffsetBinary(x), OffsetBinary(y)) ==
            if IsNegative(x) != IsNegative(y) then IsNegative(x) else Less(x, y)
  {
    hide Less, IsNegative;
    TopBitFlipped(x, y);
  }

  lemma SignedComparisonAgrees(x: Word, y: Word)
    ensures LessSigned(x, y) == SignedLess(x, y)
  {
    hide Less, IsNegative, OffsetBinary;
    OffsetBinaryOrder(x.bits, y.bits);
  }

  lemma ShiftAmountAgrees(y: Word)
    ensures ShiftOperand(y) == ShiftAmount(y)
  {
  }

  lemma ComplementBeforeShift(x: bv32, amount: bv5)
    ensures ShiftRight(!x, amount) == ShiftRight(0xFFFF_FFFF, amount) ^ ShiftRight(x, amount)
  {
  }

  lemma ShiftStaysWithinMask(x: bv32, amount: bv5)
    ensures ShiftRight(x, amount) & ShiftRight(0xFFFF_FFFF, amount) == ShiftRight(x, amount)
  {
  }

  lemma ComplementWithinMask(complement: bv32, field: bv32, mask: bv32)
    requires field & mask == field
    requires complement == mask ^ field
    ensures !complement == field | !mask
  {
  }

  lemma ComplementedShiftFills(x: bv32, amount: bv5)
    ensures !ShiftRight(!x, amount) == ShiftRight(x, amount) | !ShiftRight(0xFFFF_FFFF, amount)
  {
    hide ShiftRight;
    ComplementBeforeShift(x, amount);
    ShiftStaysWithinMask(x, amount);
    ComplementWithinMask(ShiftRight(!x, amount), ShiftRight(x, amount), ShiftRight(0xFFFF_FFFF, amount));
  }

  lemma SignBit(x: bv32)
    ensures (x & 0x8000_0000 == 0) == !IsNegative(x)
  {
  }

  lemma NothingFilled(x: bv32)
    ensures x | 0 == x
  {
  }

  lemma PositiveShift(x: bv32, amount: bv5)
    requires !IsNegative(x)
    ensures ShiftRightSigned(x, amount) == ShiftRight(x, amount)
  {
    hide ShiftRight, IsNegative;
    SignBit(x);
  }

  lemma NegativeShift(x: bv32, amount: bv5)
    requires IsNegative(x)
    ensures ShiftRightSigned(x, amount) == !ShiftRight(!x, amount)
  {
    hide ShiftRight, IsNegative;
    SignBit(x);
  }

  lemma PositiveFill(x: bv32, amount: bv5)
    requires !IsNegative(x)
    ensures SignFilledShift(x, amount) == ShiftRight(x, amount)
  {
    hide ShiftRight, IsNegative;
    NothingFilled(ShiftRight(x, amount));
  }

  lemma NegativeFill(x: bv32, amount: bv5)
    requires IsNegative(x)
    ensures SignFilledShift(x, amount) == ShiftRight(x, amount) | !ShiftRight(0xFFFF_FFFF, amount)
  {
    hide ShiftRight, IsNegative;
  }

  /** Shifting the complement and complementing fills with copies of the sign bit. */
  lemma ArithmeticShiftAgrees(x: bv32, amount: bv5)
    ensures ShiftRightSigned(x, amount) == SignFilledShift(x, amount)
  {
    hide ShiftRight, IsNegative, ShiftRightSigned, SignFilledShift;
    if IsNegative(x) {
      NegativeShift(x, amount);
      NegativeFill(x, amount);
      ComplementedShiftFills(x, amount);
    } else {
      PositiveShift(x, amount);
      PositiveFill(x, amount);
    }
  }

  lemma SumsAndLogicAgree(kind: InstructionKind, x: Word, y: Word)
    requires kind.Add? || kind.Addi? || kind.Sub? || kind.And? || kind.Andi? || kind.Or? || kind.Ori?
          || kind.Xor? || kind.Xori?
    ensures ExecuteAlu(AluOpOf(kind), x, y) == Compute(kind, x, y)
  {
    hide LessSigned, SignedLess, Below, ShiftOperand, ShiftAmount, ShiftLeft, ShiftRight, ShiftRightSigned,
         SignFilledShift, Plus, Minus, BitAnd, BitOr, BitXor;
  }

  lemma ShiftsAgree(kind: InstructionKind, x: Word, y: Word)
    requires kind.Sll? || kind.Slli? || kind.Srl? || kind.Srli? || kind.Sra? || kind.Srai?
    ensures ExecuteAlu(AluOpOf(kind), x, y) == Compute(kind, x, y)
  {
    hide LessSigned, SignedLess, Below, ShiftOperand, ShiftAmount, ShiftLeft, ShiftRight, ShiftRightSigned,
         SignFilledShift, Plus, Minus, BitAnd, BitOr, BitXor;
    ShiftAmountAgrees(y);
    ArithmeticShiftAgrees(x.bits, ShiftAmount(y));
  }

  lemma ComparisonsAgree(kind: InstructionKind, x: Word, y: Word)
    requires kind.Slt? || kind.Slti? || kind.Sltu? || kind.Sltiu?
    ensures ExecuteAlu(AluOpOf(kind), x, y) == Compute(kind, x, y)
  {
    hide LessSigned, SignedLess, Below, ShiftOperand, ShiftAmount, ShiftLeft, ShiftRight, ShiftRightSigned,
         SignFilledShift, Plus, Minus, BitAnd, BitOr, BitXor;
    SignedComparisonAgrees(x, y);
  }

  /** The ALU, with the operation decoded for an arithmetic kind, computes that kind's result. */
  lemma AluAgrees(kind: InstructionKind, x: Word, y: Word)
    requires ClassOf(kind).RegAlu? || ClassOf(kind).ImmAlu?
    ensures ExecuteAlu(AluOpOf(kind), x, y) == Compute(kind, x, y)
  {
    hide ExecuteAlu, Compute, AluOpOf;
    match kind {
      case Add | Addi | Sub | And | Andi | Or | Ori | Xor | Xori => SumsAndLogicAgree(kind, x, y);
      case Sll | Slli | Srl | Srli | Sra | Srai => ShiftsAgree(kind, x, y);
      case Slt | Slti | Sltu | Sltiu => ComparisonsAgree(kind, x, y);
      case _ =>
    }
  }

  /** The branch unit decides every branch kind as the ISA does. */
  lemma BranchAgrees(kind: InstructionKind, x: Word, y: Word)
    requires ClassOf(kind).Branch?
    ensures EvaluateBranch(ConditionOf(kind), x, y) == Taken(kind, x, y)
  {
    SignedComparisonAgrees(x, y);
    hide LessSigned, SignedLess, Below;
  }

  // Loads and stores

  lemma WidthsAgree(kind: InstructionKind)
    requires ClassOf(kind).Load? || ClassOf(kind).Store?
    ensures WidthInBytes(AccessWidthOf(kind)) == AccessBytes(kind) > 0
  {
  }

  lemma SubtractionIsFilling(value: bv32)
    ensures value < 0x100 ==> value - 0x100 == value | 0xFFFF_FF00
    ensures value < 0x1_0000 ==> value - 0x1_0000 == value | 0xFFFF_0000
  {
  }

  /** Filling with copies of the sign bit gives the two's complement value of a byte. */
  lemma ByteExtension(value: bv32)
    requires value < 0x100
    ensures SignExtend(value, 8) == if value < 0x80 then value else value - 0x100
  {
    SubtractionIsFilling(value);
  }

  lemma PositiveHalfWord(value: bv32)
    requires value < 0x8000
    ensures SignExtend(value, 16) == value
  {
  }

  lemma NegativeHalfWord(value: bv32)
    requires 0x8000 <= value < 0x1_0000
    ensures SignExtend(value, 16) == value | 0xFFFF_0000
  {
  }

  /** Filling with copies of the sign bit gives the two's complement value of a half word. */
  lemma HalfWordExtension(value: bv32)
    requires value < 0x1_0000
    ensures SignExtend(value, 16) == Extended(Lh, value)
  {
    hide SignExtend;
    if value < 0x8000 {
      PositiveHalfWord(value);
    } else {
      NegativeHalfWord(value);
      SubtractionIsFilling(value);
    }
  }

  lemma ByteLoadAgrees(memory: seq<Byte>, address: Word, control: ControlSignals, kind: InstructionKind)
    requires InBounds(|memory|, address, 1)
    requires control.memoryWidth.ByteAccess? && control.memUnsigned == kind.Lbu?
    requires kind.Lb? || kind.Lbu?
    ensures ReadMemory(memory, address, control)
         == Word(Extended(kind, FromBytes(memory[Index(address)..Index(address) + 1])))
  {
    hide FromBytes, SignExtend, Index;
    ReadU8IsLittleEndian(memory, address);
    ByteExtension(WidenByte(ReadU8(memory, address)));
  }

  lemma UnsignedHalfWordLoadAgrees(memory: seq<Byte>, address: Word, control: ControlSignals)
    requires InBounds(|memory|, address, 2)
    requires control.memoryWidth.HalfWordAccess? && control.memUnsigned
    ensures ReadMemory(memory, address, control)
         == Word(FromBytes(memory[Index(address)..Index(address) + 2]))
  {
    hide FromBytes, SignExtend, Index, ReadU16;
    ReadU16IsLittleEndian(memory, address);
  }

  lemma SignedHalfWordIsRead(memory: seq<Byte>, address: Word, control: ControlSignals)
    requires InBounds(|memory|, address, 2)
    requires control.memoryWidth.HalfWordAccess? && !control.memUnsigned
    ensures ReadMemory(memory, address, control) == Word(SignExtend(WidenHalfWord(ReadU16(memory, address)), 16))
  {
    hide SignExtend, Index, ReadU16, WidenHalfWord;
  }

  lemma HalfWordIsSmall(value: bv16)
    ensures WidenHalfWord(value) < 0x1_0000
  {
  }

  lemma SignedHalfWordLoadAgrees(memory: seq<Byte>, address: Word, control: ControlSignals)
    requires InBounds(|memory|, address, 2)
    requires control.memoryWidth.HalfWordAccess? && !control.memUnsigned
    ensures ReadMemory(memory, address, control)
         == Word(Extended(Lh, FromBytes(memory[Index(address)..Index(address) + 2])))
  {
    hide FromBytes, SignExtend, Index, ReadU16, ReadMemory, WidenHalfWord, Extended;
    SignedHalfWordIsRead(memory, address, control);
    ReadU16IsLittleEndian(memory, address);
    HalfWordIsSmall(ReadU16(memory, address));
    HalfWordExtension(WidenHalfWord(ReadU16(memory, address)));
  }

  /** MEM reads what the ISA loads: the little-endian bytes at the address, extended as the kind says. */
  lemma LoadAgrees(memory: seq<Byte>, address: Word, kind: InstructionKind)
    requires ClassOf(kind).Load? && Index(address) + AccessBytes(kind) <= |memory|
    ensures WidthInBytes(ControlOf(kind).memoryWidth) == AccessBytes(kind)
    ensures ReadMemory(memory, address, ControlOf(kind))
         == Word(Extended(kind, FromBytes(memory[Index(address)..Index(address) + AccessBytes(kind)])))
  {
    hide FromBytes, Index, ReadMemory;
    var control := ControlOf(kind);
    match kind {
      case Lb | Lbu => ByteLoadAgrees(memory, address, control, kind);
      case Lh => SignedHalfWordLoadAgrees(memory, address, control);
      case Lhu => UnsignedHalfWordLoadAgrees(memory, address, control);
      case Lw => WordLoadAgrees(memory, address, control);
      case _ =>
    }
  }

  lemma WordLoadAgrees(memory: seq<Byte>, address: Word, control: ControlSignals)
    requires InBounds(|memory|, address, 4) && control.memoryWidth.WordAccess?
    ensures ReadMemory(memory, address, control) == Word(FromBytes(memory[Index(address)..Index(address) + 4]))
  {
    hide FromBytes, Index, ReadU32;
    ReadU32IsLittleEndian(memory, address);
  }

  /** MEM stores the low-order bytes of the value, as many as the kind says. */
  lemma StoreAgrees(memory: seq<Byte>, address: Word, value: Word, kind: InstructionKind)
    requires ClassOf(kind).Store? && Index(address) + AccessBytes(kind) <= |memory|
    ensures WidthInBytes(ControlOf(kind).memoryWidth) == AccessBytes(kind)
    ensures WriteMemory(memory, address, value, ControlOf(kind))
         == Splice(memory, Index(address), ToBytes(value.bits, AccessBytes(kind)))
  {
    hide WriteMemory;
    match kind {
      case Sb => ByteStoreAgrees(memory, address, value, ControlOf(kind));
      case Sh => HalfWordStoreAgrees(memory, address, value, ControlOf(kind));
      case Sw => WordStoreAgrees(memory, address, value, ControlOf(kind));
      case _ =>
    }
    hide ToBytes, Splice, Index;
  }

  lemma ByteStoreAgrees(memory: seq<Byte>, address: Word, value: Word, control: ControlSignals)
    requires InBounds(|memory|, address, 1) && control.memoryWidth.ByteAccess?
    ensures WriteMemory(memory, address, value, control) == Splice(memory, Index(address), ToBytes(value.bits, 1))
  {
    WriteU8IsLittleEndian(memory, address, value.bits);
    hide ToBytes, Splice, Index, WriteU8, LowByte;
  }

  lemma HalfWordStoreAgrees(memory: seq<Byte>, address: Word, value: Word, control: ControlSignals)
    requires InBounds(|memory|, address, 2) && control.memoryWidth.HalfWordAccess?
    ensures WriteMemory(memory, address, value, control) == Splice(memory, Index(address), ToBytes(value.bits, 2))
  {
    WriteU16IsLittleEndian(memory, address, value.bits);
    hide ToBytes, Splice, Index, WriteU16, LowHalfWord;
  }

  lemma WordStoreAgrees(memory: seq<Byte>, address: Word, value: Word, control: ControlSignals)
    requires InBounds(|memory|, address, 4) && control.memoryWidth.WordAccess?
    ensures WriteMemory(memory, address, value, control) == Splice(memory, Index(address), ToBytes(value.bits, 4))
  {
    WriteU32IsLittleEndian(memory, address, value.bits);
    hide ToBytes, Splice, Index, WriteU32;
  }

  lemma KindsHaveTheirAccess(kind: InstructionKind)
    ensures var control := ControlOf(kind);
            && WidthInBytes(control.memoryWidth) == AccessBytes(kind)
            && (control.memUnsigned <==> kind.Lbu? || kind.Lhu?)
            && (control.memRead <==> ClassOf(kind).Load?) && (control.memWrite <==> ClassOf(kind).Store?)
  {
  }

  /** The access that a word's control signals ask for is the one its kind makes: this wide, this way, so extended. */
  lemma DecodedAccess(instruction: Word)
    ensures var d := DecodeInstruction(instruction);
            && WidthInBytes(d.control.memoryWidth) == AccessBytes(d.kind)
            && (d.control.memUnsigned <==> d.kind.Lbu? || d.kind.Lhu?)
            && (d.control.memRead <==> ClassOf(d.kind).Load?) && (d.control.memWrite <==> ClassOf(d.kind).Store?)
  {
    hide DecodeInstruction, ControlOf;
    DecodedControl(instruction);
    KindsHaveTheirAccess(DecodeInstruction(instruction).kind);
  }
}
