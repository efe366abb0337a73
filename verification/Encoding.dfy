/**
 * The instruction formats of the RISC-V Unprivileged ISA (sections 2.2 and 2.3), written as an encoder from the
 * tables of opcodes and function codes. The decoder is its exact inverse, over all words and all legal fields.
 */
module Encoding {
  import opened Words
  import opened Decoder
  import opened PipelineRegisters
  import opened Instruction

  // Formats

  function FormatR(funct7: bv7, rs2: bv5, rs1: bv5, funct3: bv3, rd: bv5, opcode: bv7): bv32 {
    ((funct7 as bv32) << 25) | ((rs2 as bv32) << 20) | ((rs1 as bv32) << 15) | ((funct3 as bv32) << 12)
    | ((rd as bv32) << 7) | (opcode as bv32)
  }

  function FormatI(imm: bv32, rs1: bv5, funct3: bv3, rd: bv5, opcode: bv7): bv32 {
    ((imm & 0xFFF) << 20) | ((rs1 as bv32) << 15) | ((funct3 as bv32) << 12) | ((rd as bv32) << 7) | (opcode as bv32)
  }

  function FormatS(imm: bv32, rs2: bv5, rs1: bv5, funct3: bv3, opcode: bv7): bv32 {
    (((imm >> 5) & 0x7F) << 25) | ((rs2 as bv32) << 20) | ((rs1 as bv32) << 15) | ((funct3 as bv32) << 12)
    | ((imm & 0x1F) << 7) | (opcode as bv32)
  }

  function FormatB(imm: bv32, rs2: bv5, rs1: bv5, funct3: bv3, opcode: bv7): bv32 {
    (((imm >> 12) & 1) << 31) | (((imm >> 5) & 0x3F) << 25) | ((rs2 as bv32) << 20) | ((rs1 as bv32) << 15)
    | ((funct3 as bv32) << 12) | (((imm >> 1) & 0xF) << 8) | (((imm >> 11) & 1) << 7) | (opcode as bv32)
  }

  function FormatU(imm: bv32, rd: bv5, opcode: bv7): bv32 {
    (imm & 0xFFFF_F000) | ((rd as bv32) << 7) | (opcode as bv32)
  }

  function FormatJ(imm: bv32, rd: bv5, opcode: bv7): bv32 {
    (((imm >> 20) & 1) << 31) | (((imm >> 1) & 0x3FF) << 21) | (((imm >> 11) & 1) << 20)
    | (((imm >> 12) & 0xFF) << 12) | ((rd as bv32) << 7) | (opcode as bv32)
  }

  // Immediates: 12-bit signed, even 13-bit signed, even 21-bit signed, and the upper 20 bits

  predicate FitsSigned12(imm: bv32) {
    imm < 0x800 || imm >= 0xFFFF_F800
  }

  predicate FitsBranch(imm: bv32) {
    imm & 1 == 0 && (imm < 0x1000 || imm >= 0xFFFF_F000)
  }

  predicate FitsJump(imm: bv32) {
    imm & 1 == 0 && (imm < 0x10_0000 || imm >= 0xFFF0_0000)
  }

  predicate FitsUpper(imm: bv32) {
    imm & 0xFFF == 0
  }

  // Sign extension keeps the low bits and copies the top one

  lemma PositiveOf12(value: bv32)
    requires value & 0x800 == 0
    ensures SignExtend(value, 12) == value & 0xFFF
  {
  }

  lemma NegativeOf12(value: bv32)
    requires value & 0x800 != 0
    ensures SignExtend(value, 12) == (value & 0xFFF) | 0xFFFF_F000
  {
  }

  lemma LowBitsOf12(value: bv32)
    ensures SignExtend(value, 12) & 0xFFF == value & 0xFFF
  {
    hide SignExtend;
    if value & 0x800 == 0 {
      PositiveOf12(value);
    } else {
      NegativeOf12(value);
    }
  }

  lemma PositiveOf13(value: bv32)
    requires value & 0x1000 == 0
    ensures SignExtend(value, 13) == value & 0x1FFF
  {
  }

  lemma NegativeOf13(value: bv32)
    requires value & 0x1000 != 0
    ensures SignExtend(value, 13) == (value & 0x1FFF) | 0xFFFF_E000
  {
  }

  lemma LowBitsOf13(value: bv32)
    ensures SignExtend(value, 13) & 0x1FFF == value & 0x1FFF
  {
    hide SignExtend;
    if value & 0x1000 == 0 {
      PositiveOf13(value);
    } else {
      NegativeOf13(value);
    }
  }

  lemma PositiveOf21(value: bv32)
    requires value & 0x10_0000 == 0
    ensures SignExtend(value, 21) == value & 0x1F_FFFF
  {
  }

  lemma NegativeOf21(value: bv32)
    requires value & 0x10_0000 != 0
    ensures SignExtend(value, 21) == (value & 0x1F_FFFF) | 0xFFE0_0000
  {
  }

  lemma LowBitsOf21(value: bv32)
    ensures SignExtend(value, 21) & 0x1F_FFFF == value & 0x1F_FFFF
  {
    hide SignExtend;
    if value & 0x10_0000 == 0 {
      PositiveOf21(value);
    } else {
      NegativeOf21(value);
    }
  }

  lemma RangeOf12(value: bv32)
    ensures FitsSigned12(SignExtend(value, 12))
  {
    hide SignExtend;
    if value & 0x800 == 0 {
      PositiveOf12(value);
    } else {
      NegativeOf12(value);
    }
  }

  lemma FittingIsKeptBy12(value: bv32)
    requires FitsSigned12(value)
    ensures SignExtend(value & 0xFFF, 12) == value
  {
    hide SignExtend;
    if value & 0x800 == 0 {
      PositiveOf12(value & 0xFFF);
    } else {
      NegativeOf12(value & 0xFFF);
    }
  }

  lemma RangeOf13(value: bv32)
    requires value & 1 == 0
    ensures FitsBranch(SignExtend(value, 13))
  {
    hide SignExtend;
    if value & 0x1000 == 0 {
      PositiveOf13(value);
    } else {
      NegativeOf13(value);
    }
  }

  lemma FittingIsKeptBy13(value: bv32)
    requires FitsBranch(value)
    ensures SignExtend(value & 0x1FFF, 13) == value
  {
    hide SignExtend;
    if value & 0x1000 == 0 {
      PositiveOf13(value & 0x1FFF);
    } else {
      NegativeOf13(value & 0x1FFF);
    }
  }

  lemma RangeOf21(value: bv32)
    requires value & 1 == 0
    ensures FitsJump(SignExtend(value, 21))
  {
    hide SignExtend;
    if value & 0x10_0000 == 0 {
      PositiveOf21(value);
    } else {
      NegativeOf21(value);
    }
  }

  lemma FittingIsKeptBy21(value: bv32)
    requires FitsJump(value)
    ensures SignExtend(value & 0x1F_FFFF, 21) == value
  {
    hide SignExtend;
    if value & 0x10_0000 == 0 {
      PositiveOf21(value & 0x1F_FFFF);
    } else {
      NegativeOf21(value & 0x1F_FFFF);
    }
  }

  // Fields go in and come out

  lemma FieldsOfR(funct7: bv7, rs2: bv5, rs1: bv5, funct3: bv3, rd: bv5, opcode: bv7)
    ensures var w := FormatR(funct7, rs2, rs1, funct3, rd, opcode);
            && ExtractFunct7(w) == funct7 && ExtractRs2(w) == rs2 && ExtractRs1(w) == rs1
            && ExtractFunct3(w) == funct3 && ExtractRd(w) == rd && ExtractOpcode(w) == opcode
  {
  }

  lemma FieldsOfI(imm: bv32, rs1: bv5, funct3: bv3, rd: bv5, opcode: bv7)
    ensures var w := FormatI(imm, rs1, funct3, rd, opcode);
            ExtractRs1(w) == rs1 && ExtractFunct3(w) == funct3 && ExtractRd(w) == rd && ExtractOpcode(w) == opcode
  {
  }

  lemma ImmediateOfI(imm: bv32, rs1: bv5, funct3: bv3, rd: bv5, opcode: bv7)
    requires FitsSigned12(imm)
    ensures ImmediateI(FormatI(imm, rs1, funct3, rd, opcode)) == imm
  {
    assert FieldI(FormatI(imm, rs1, funct3, rd, opcode)) == imm & 0xFFF;
    hide FieldI, FormatI, SignExtend, FitsSigned12;
    FittingIsKeptBy12(imm);
  }

  lemma FieldsOfS(imm: bv32, rs2: bv5, rs1: bv5, funct3: bv3, opcode: bv7)
    ensures var w := FormatS(imm, rs2, rs1, funct3, opcode);
            ExtractRs2(w) == rs2 && ExtractRs1(w) == rs1 && ExtractFunct3(w) == funct3 && ExtractOpcode(w) == opcode
  {
  }

  lemma ImmediateOfS(imm: bv32, rs2: bv5, rs1: bv5, funct3: bv3, opcode: bv7)
    requires FitsSigned12(imm)
    ensures ImmediateS(FormatS(imm, rs2, rs1, funct3, opcode)) == imm
  {
    assert FieldS(FormatS(imm, rs2, rs1, funct3, opcode)) == imm & 0xFFF;
    hide FieldS, FormatS, SignExtend, FitsSigned12;
    FittingIsKeptBy12(imm);
  }

  lemma FieldsOfB(imm: bv32, rs2: bv5, rs1: bv5, funct3: bv3, opcode: bv7)
    ensures var w := FormatB(imm, rs2, rs1, funct3, opcode);
            ExtractRs2(w) == rs2 && ExtractRs1(w) == rs1 && ExtractFunct3(w) == funct3 && ExtractOpcode(w) == opcode
  {
  }

  lemma FieldOfB(imm: bv32, rs2: bv5, rs1: bv5, funct3: bv3, opcode: bv7)
    requires FitsBranch(imm)
    ensures FieldB(FormatB(imm, rs2, rs1, funct3, opcode)) == imm & 0x1FFF
  {
  }

  lemma ImmediateOfB(imm: bv32, rs2: bv5, rs1: bv5, funct3: bv3, opcode: bv7)
    requires FitsBranch(imm)
    ensures ImmediateB(FormatB(imm, rs2, rs1, funct3, opcode)) == imm
  {
    hide FieldB, FormatB, SignExtend, FitsBranch;
    FieldOfB(imm, rs2, rs1, funct3, opcode);
    FittingIsKeptBy13(imm);
  }

  lemma FieldsOfU(imm: bv32, rd: bv5, opcode: bv7)
    ensures ExtractRd(FormatU(imm, rd, opcode)) == rd && ExtractOpcode(FormatU(imm, rd, opcode)) == opcode
    ensures FitsUpper(imm) ==> ImmediateU(FormatU(imm, rd, opcode)) == imm
  {
  }

  lemma FieldsOfJ(imm: bv32, rd: bv5, opcode: bv7)
    ensures ExtractRd(FormatJ(imm, rd, opcode)) == rd && ExtractOpcode(FormatJ(imm, rd, opcode)) == opcode
  {
  }

  lemma FieldOfJ(imm: bv32, rd: bv5, opcode: bv7)
    requires FitsJump(imm)
    ensures FieldJ(FormatJ(imm, rd, opcode)) == imm & 0x1F_FFFF
  {
  }

  lemma ImmediateOfJ(imm: bv32, rd: bv5, opcode: bv7)
    requires FitsJump(imm)
    ensures ImmediateJ(FormatJ(imm, rd, opcode)) == imm
  {
    hide FieldJ, FormatJ, SignExtend, FitsJump;
    FieldOfJ(imm, rd, opcode);
    FittingIsKeptBy21(imm);
  }

  // Words come apart and go together

  lemma WordOfR(w: bv32)
    ensures FormatR(ExtractFunct7(w), ExtractRs2(w), ExtractRs1(w), ExtractFunct3(w), ExtractRd(w), ExtractOpcode(w))
         == w
  {
  }

  lemma WordOfI(w: bv32)
    ensures FormatI(ImmediateI(w), ExtractRs1(w), ExtractFunct3(w), ExtractRd(w), ExtractOpcode(w)) == w
  {
    hide SignExtend;
    LowBitsOf12(FieldI(w));
  }

  lemma WordOfS(w: bv32)
    ensures FormatS(ImmediateS(w), ExtractRs2(w), ExtractRs1(w), ExtractFunct3(w), ExtractOpcode(w)) == w
  {
    hide SignExtend;
    LowBitsOf12(FieldS(w));
  }

  lemma WordOfB(w: bv32)
    ensures FormatB(ImmediateB(w), ExtractRs2(w), ExtractRs1(w), ExtractFunct3(w), ExtractOpcode(w)) == w
  {
    hide SignExtend;
    LowBitsOf13(FieldB(w));
  }

  lemma WordOfU(w: bv32)
    ensures FormatU(ImmediateU(w), ExtractRd(w), ExtractOpcode(w)) == w
    ensures FitsUpper(ImmediateU(w))
  {
  }

  lemma WordOfJ(w: bv32)
    ensures FormatJ(ImmediateJ(w), ExtractRd(w), ExtractOpcode(w)) == w
  {
    hide SignExtend;
    LowBitsOf21(FieldJ(w));
  }

  /** Every immediate the decoder assembles is one its format can hold. */
  lemma DecodedImmediatesFit(w: bv32)
    ensures FitsSigned12(ImmediateI(w)) && FitsSigned12(ImmediateS(w))
    ensures FitsBranch(ImmediateB(w)) && FitsJump(ImmediateJ(w)) && FitsUpper(ImmediateU(w))
  {
    assert FieldB(w) & 1 == 0 && FieldJ(w) & 1 == 0;
    hide SignExtend, FitsSigned12, FitsBranch, FitsJump, FieldI, FieldS, FieldB, FieldJ;
    RangeOf12(FieldI(w));
    RangeOf12(FieldS(w));
    RangeOf13(FieldB(w));
    RangeOf21(FieldJ(w));
  }

  // The opcode and function-code tables

  function Funct3Of(kind: InstructionKind): bv3 {
    match kind
    case Add | Sub | Addi | Lb | Sb | Beq | Jalr | Ecall | Ebreak => 0
    case Sll | Slli | Lh | Sh | Bne => 1
    case Slt | Slti | Lw | Sw => 2
    case Sltu | Sltiu => 3
    case Xor | Xori | Lbu | Blt => 4
    case Srl | Sra | Srli | Srai | Lhu | Bge => 5
    case Or | Ori | Bltu => 6
    case And | Andi | Bgeu => 7
    case Lui | Auipc | Jal | Invalid => 0
  }

  function Funct7Of(kind: InstructionKind): bv7 {
    if kind.Sub? || kind.Sra? || kind.Srai? then 0x20 else 0
  }

  predicate IsShiftImmediate(kind: InstructionKind) {
    kind.Slli? || kind.Srli? || kind.Srai?
  }

  /** The word that the ISA assigns to an instruction; registers and immediates a format lacks are ignored. */
  function EncodeBits(kind: InstructionKind, rd: bv5, rs1: bv5, rs2: bv5, imm: bv32): bv32 {
    var funct3 := Funct3Of(kind);
    match ClassOf(kind)
    case RegAlu => FormatR(Funct7Of(kind), rs2, rs1, funct3, rd, OPCODE_REG)
    case ImmAlu =>
      if IsShiftImmediate(kind) then FormatR(Funct7Of(kind), (imm & 0x1F) as bv5, rs1, funct3, rd, OPCODE_IMM)
      else FormatI(imm, rs1, funct3, rd, OPCODE_IMM)
    case Load => FormatI(imm, rs1, funct3, rd, OPCODE_LOAD)
    case Store => FormatS(imm, rs2, rs1, funct3, OPCODE_STORE)
    case Branch => FormatB(imm, rs2, rs1, funct3, OPCODE_BRANCH)
    case LoadUpper => FormatU(imm, rd, OPCODE_LUI)
    case AddUpperPc => FormatU(imm, rd, OPCODE_AUIPC)
    case Jump => FormatJ(imm, rd, OPCODE_JAL)
    case JumpRegister => FormatI(imm, rs1, funct3, rd, OPCODE_JALR)
    case System => FormatI(imm, rs1, funct3, rd, OPCODE_SYSTEM)
    case NoClass => 0
  }

  function Encode(kind: InstructionKind, rd: RegIndex, rs1: RegIndex, rs2: RegIndex, imm: Word): Word {
    Word(EncodeBits(kind, rd.number, rs1.number, rs2.number, imm.bits))
  }

  /** The immediates an instruction can have. */
  predicate LegalImmediate(kind: InstructionKind, imm: bv32) {
    match ClassOf(kind)
    case NoClass => false
    case RegAlu => imm == 0
    case ImmAlu => if IsShiftImmediate(kind) then imm < 32 else FitsSigned12(imm)
    case Load | Store | JumpRegister => FitsSigned12(imm)
    case Branch => FitsBranch(imm)
    case LoadUpper | AddUpperPc => FitsUpper(imm)
    case Jump => FitsJump(imm)
    case System => imm == if kind.Ecall? then 0 else 1
  }

  // Decoding, then encoding

  ghost predicate DecodedIsItsWord(raw: bv32, operation: Operation) {
    !operation.kind.Invalid? ==>
      && LegalImmediate(operation.kind, operation.immediate.bits)
      && EncodeBits(operation.kind, ExtractRd(raw), ExtractRs1(raw), ExtractRs2(raw), operation.immediate.bits) == raw
  }

  lemma RegCodes(funct3: bv3, funct7: bv7)
    requires RegOperation(funct3, funct7).Some?
    ensures var kind := RegOperation(funct3, funct7).value.0;
            ClassOf(kind).RegAlu? && Funct3Of(kind) == funct3 && Funct7Of(kind) == funct7
  {
  }

  lemma ImmCodes(funct3: bv3, funct7: bv7)
    requires ImmOperation(funct3, funct7).Some?
    ensures var kind := ImmOperation(funct3, funct7).value.0;
            && ClassOf(kind).ImmAlu? && Funct3Of(kind) == funct3
            && (IsShiftImmediate(kind) <==> funct3 == 1 || funct3 == 5)
            && (IsShiftImmediate(kind) ==> Funct7Of(kind) == funct7)
  {
  }

  lemma RegWordAgain(raw: bv32)
    requires ExtractOpcode(raw) == OPCODE_REG
    ensures DecodedIsItsWord(raw, DecodeReg(ExtractFunct3(raw), ExtractFunct7(raw)))
  {
    hide RegOperation, Funct3Of, Funct7Of, ClassOf, FormatR, ExtractRd, ExtractRs1, ExtractRs2, ExtractFunct3,
         ExtractFunct7, ExtractOpcode;
    WordOfR(raw);
    if RegOperation(ExtractFunct3(raw), ExtractFunct7(raw)).Some? {
      RegCodes(ExtractFunct3(raw), ExtractFunct7(raw));
    }
  }

  /** The bits that hold rs2 are the low bits of an I immediate. */
  lemma ShiftAmountIsRs2(raw: bv32)
    ensures (ImmediateI(raw) & 0x1F) as bv5 == ExtractRs2(raw)
    ensures (ImmediateI(raw) & 0x1F) & 0x1F == ImmediateI(raw) & 0x1F
    ensures ImmediateI(raw) & 0x1F < 32
  {
    hide SignExtend;
    LowBitsOf12(FieldI(raw));
  }

  lemma ImmWordAgain(raw: bv32)
    requires ExtractOpcode(raw) == OPCODE_IMM
    ensures DecodedIsItsWord(raw, DecodeImm(ExtractFunct3(raw), ExtractFunct7(raw), ImmediateI(raw)))
  {
    hide ImmOperation, Funct3Of, Funct7Of, ClassOf, FormatR, FormatI, ExtractRd, ExtractRs1, ExtractRs2, ExtractFunct3,
         ExtractFunct7, ExtractOpcode, ImmediateI, IsShiftImmediate, FitsSigned12;
    if ImmOperation(ExtractFunct3(raw), ExtractFunct7(raw)).Some? {
      ImmCodes(ExtractFunct3(raw), ExtractFunct7(raw));
      WordOfI(raw);
      WordOfR(raw);
      DecodedImmediatesFit(raw);
      ShiftAmountIsRs2(raw);
    }
  }

  lemma LoadCodes(funct3: bv3)
    requires !LoadKind(funct3).Invalid?
    ensures ClassOf(LoadKind(funct3)).Load? && Funct3Of(LoadKind(funct3)) == funct3
  {
  }

  lemma LoadWordAgain(raw: bv32)
    requires ExtractOpcode(raw) == OPCODE_LOAD
    ensures DecodedIsItsWord(raw, DecodeLoad(ExtractFunct3(raw), ImmediateI(raw)))
  {
    hide LoadKind, Funct3Of, ClassOf, FormatI, ExtractRd, ExtractRs1, ExtractFunct3, ExtractOpcode, ImmediateI,
         FitsSigned12;
    if !LoadKind(ExtractFunct3(raw)).Invalid? {
      LoadCodes(ExtractFunct3(raw));
      WordOfI(raw);
      DecodedImmediatesFit(raw);
    }
  }

  lemma StoreCodes(funct3: bv3)
    requires !StoreKind(funct3).Invalid?
    ensures ClassOf(StoreKind(funct3)).Store? && Funct3Of(StoreKind(funct3)) == funct3
  {
  }

  lemma StoreWordAgain(raw: bv32)
    requires ExtractOpcode(raw) == OPCODE_STORE
    ensures DecodedIsItsWord(raw, DecodeStore(ExtractFunct3(raw), ImmediateS(raw)))
  {
    hide StoreKind, Funct3Of, ClassOf, FormatS, ExtractRs1, ExtractRs2, ExtractFunct3, ExtractOpcode, ImmediateS,
         FitsSigned12;
    if !StoreKind(ExtractFunct3(raw)).Invalid? {
      StoreCodes(ExtractFunct3(raw));
      WordOfS(raw);
      DecodedImmediatesFit(raw);
    }
  }

  lemma BranchCodes(funct3: bv3)
    requires BranchOperation(funct3).Some?
    ensures var kind := BranchOperation(funct3).value.0; ClassOf(kind).Branch? && Funct3Of(kind) == funct3
  {
  }

  lemma BranchWordAgain(raw: bv32)
    requires ExtractOpcode(raw) == OPCODE_BRANCH
    ensures DecodedIsItsWord(raw, DecodeBranch(ExtractFunct3(raw), ImmediateB(raw)))
  {
    hide BranchOperation, Funct3Of, ClassOf, FormatB, ExtractRs1, ExtractRs2, ExtractFunct3, ExtractOpcode, ImmediateB,
         FitsBranch;
    if BranchOperation(ExtractFunct3(raw)).Some? {
      BranchCodes(ExtractFunct3(raw));
      WordOfB(raw);
      DecodedImmediatesFit(raw);
    }
  }

  lemma SingleClasses()
    ensures ClassOf(Lui).LoadUpper? && ClassOf(Auipc).AddUpperPc? && ClassOf(Jal).Jump?
    ensures ClassOf(Jalr).JumpRegister? && ClassOf(Ecall).System? && ClassOf(Ebreak).System?
  {
  }

  lemma SingleCodes()
    ensures ClassOf(Lui).LoadUpper? && ClassOf(Auipc).AddUpperPc? && ClassOf(Jal).Jump?
    ensures ClassOf(Jalr).JumpRegister? && ClassOf(Ecall).System? && ClassOf(Ebreak).System?
    ensures Funct3Of(Jalr) == 0 && Funct3Of(Ecall) == 0 && Funct3Of(Ebreak) == 0
  {
    hide ClassOf;
    SingleClasses();
  }

  lemma UpperWordAgain(raw: bv32)
    ensures ExtractOpcode(raw) == OPCODE_LUI ==> DecodedIsItsWord(raw, DecodeLui(ImmediateU(raw)))
    ensures ExtractOpcode(raw) == OPCODE_AUIPC ==> DecodedIsItsWord(raw, DecodeAuipc(ImmediateU(raw)))
  {
    hide ClassOf, Funct3Of, FormatU, ExtractRd, ExtractOpcode, ImmediateU, FitsUpper;
    SingleCodes();
    WordOfU(raw);
  }

  lemma JumpWordAgain(raw: bv32)
    requires ExtractOpcode(raw) == OPCODE_JAL
    ensures DecodedIsItsWord(raw, DecodeJal(ImmediateJ(raw)))
  {
    hide ClassOf, Funct3Of, FormatJ, ExtractRd, ExtractOpcode, ImmediateJ, FitsJump;
    SingleCodes();
    WordOfJ(raw);
    DecodedImmediatesFit(raw);
  }

  lemma JumpRegisterWordAgain(raw: bv32)
    requires ExtractOpcode(raw) == OPCODE_JALR
    ensures DecodedIsItsWord(raw, DecodeJalr(ExtractFunct3(raw), ImmediateI(raw)))
  {
    hide ClassOf, Funct3Of, FormatI, ExtractRd, ExtractRs1, ExtractFunct3, ExtractOpcode, ImmediateI, FitsSigned12;
    SingleCodes();
    WordOfI(raw);
    DecodedImmediatesFit(raw);
  }

  lemma SystemWordAgain(raw: bv32)
    requires ExtractOpcode(raw) == OPCODE_SYSTEM
    ensures DecodedIsItsWord(raw, DecodeSystem(ExtractFunct3(raw), ImmediateI(raw)))
  {
    hide ClassOf, Funct3Of, FormatI, ExtractRd, ExtractRs1, ExtractFunct3, ExtractOpcode, ImmediateI;
    SingleCodes();
    WordOfI(raw);
  }

  lemma InvalidIsNoWord(raw: bv32)
    ensures DecodedIsItsWord(raw, Operation(Invalid, ZERO, NO_CONTROL))
  {
  }

  lemma OperationIsItsWord(raw: bv32)
    ensures DecodedIsItsWord(raw, DecodeOperation(raw))
  {
    hide DecodedIsItsWord, DecodeReg, DecodeImm, DecodeLoad, DecodeStore, DecodeBranch, DecodeJal, DecodeJalr,
         DecodeSystem, DecodeLui, DecodeAuipc, ImmediateI, ImmediateS, ImmediateB, ImmediateU, ImmediateJ,
         ExtractOpcode, ExtractFunct3, ExtractFunct7;
    if ExtractOpcode(raw) == OPCODE_REG { RegWordAgain(raw); }
    else if ExtractOpcode(raw) == OPCODE_IMM { ImmWordAgain(raw); }
    else if ExtractOpcode(raw) == OPCODE_LOAD { LoadWordAgain(raw); }
    else if ExtractOpcode(raw) == OPCODE_STORE { StoreWordAgain(raw); }
    else if ExtractOpcode(raw) == OPCODE_BRANCH { BranchWordAgain(raw); }
    else if ExtractOpcode(raw) == OPCODE_JAL { JumpWordAgain(raw); }
    else if ExtractOpcode(raw) == OPCODE_JALR { JumpRegisterWordAgain(raw); }
    else if ExtractOpcode(raw) == OPCODE_SYSTEM { SystemWordAgain(raw); }
    else { UpperWordAgain(raw); InvalidIsNoWord(raw); }
  }

  /** Whatever word decodes as valid is exactly the word its own fields encode, and its immediate is a legal one. */
  lemma DecodeThenEncode(word: Word)
    requires DecodeInstruction(word).IsValid()
    ensures var d := DecodeInstruction(word);
            LegalImmediate(d.kind, d.immediate.bits) && Encode(d.kind, d.rd, d.rs1, d.rs2, d.immediate) == word
  {
    hide EncodeBits, LegalImmediate, DecodeOperation, ExtractRd, ExtractRs1, ExtractRs2;
    OperationIsItsWord(word.bits);
  }

  // Encoding, then decoding

  lemma RegCodesBack(kind: InstructionKind)
    requires ClassOf(kind).RegAlu?
    ensures var operation := RegOperation(Funct3Of(kind), Funct7Of(kind)); operation.Some? && operation.value.0 == kind
  {
  }

  lemma ImmCodesBack(kind: InstructionKind, funct7: bv7)
    requires ClassOf(kind).ImmAlu? && (IsShiftImmediate(kind) ==> funct7 == Funct7Of(kind))
    ensures var operation := ImmOperation(Funct3Of(kind), funct7); operation.Some? && operation.value.0 == kind
    ensures IsShiftImmediate(kind) <==> Funct3Of(kind) == 1 || Funct3Of(kind) == 5
  {
  }

  lemma LoadCodesBack(kind: InstructionKind)
    requires ClassOf(kind).Load?
    ensures LoadKind(Funct3Of(kind)) == kind
  {
  }

  lemma StoreCodesBack(kind: InstructionKind)
    requires ClassOf(kind).Store?
    ensures StoreKind(Funct3Of(kind)) == kind
  {
  }

  lemma BranchCodesBack(kind: InstructionKind)
    requires ClassOf(kind).Branch?
    ensures var operation := BranchOperation(Funct3Of(kind)); operation.Some? && operation.value.0 == kind
  {
  }

  lemma SystemCodesBack(kind: InstructionKind)
    requires ClassOf(kind).System?
    ensures Funct3Of(kind) == 0
    ensures DecodeSystem(0, if kind.Ecall? then 0 else 1).kind == kind
  {
  }

  ghost predicate DecodesTo(raw: bv32, kind: InstructionKind, imm: bv32) {
    DecodeOperation(raw).kind == kind && DecodeOperation(raw).immediate.bits == imm
  }

  lemma RegDecodesBack(kind: InstructionKind, rd: bv5, rs1: bv5, rs2: bv5)
    requires ClassOf(kind).RegAlu?
    ensures DecodesTo(FormatR(Funct7Of(kind), rs2, rs1, Funct3Of(kind), rd, OPCODE_REG), kind, 0)
  {
    hide RegOperation, Funct3Of, Funct7Of, ClassOf, FormatR, ExtractFunct3, ExtractFunct7, ExtractOpcode;
    FieldsOfR(Funct7Of(kind), rs2, rs1, Funct3Of(kind), rd, OPCODE_REG);
    RegCodesBack(kind);
  }

  lemma ShiftDecodesBack(kind: InstructionKind, rd: bv5, rs1: bv5, imm: bv32)
    requires ClassOf(kind).ImmAlu? && IsShiftImmediate(kind) && imm < 32
    ensures DecodesTo(FormatR(Funct7Of(kind), (imm & 0x1F) as bv5, rs1, Funct3Of(kind), rd, OPCODE_IMM), kind, imm)
  {
    hide ImmOperation, Funct3Of, Funct7Of, ClassOf, FormatR, ExtractFunct3, ExtractFunct7, ExtractOpcode, ImmediateI,
         IsShiftImmediate, ExtractRs2;
    var raw := FormatR(Funct7Of(kind), (imm & 0x1F) as bv5, rs1, Funct3Of(kind), rd, OPCODE_IMM);
    FieldsOfR(Funct7Of(kind), (imm & 0x1F) as bv5, rs1, Funct3Of(kind), rd, OPCODE_IMM);
    ShiftAmountIsRs2(raw);
    ImmCodesBack(kind, Funct7Of(kind));
    FiveBitsOf(ImmediateI(raw), imm);
  }

  lemma FiveBitsOf(x: bv32, amount: bv32)
    requires amount < 32 && (x & 0x1F) as bv5 == (amount & 0x1F) as bv5
    ensures x & 0x1F == amount
  {
  }

  lemma ImmDecodesBack(kind: InstructionKind, rd: bv5, rs1: bv5, imm: bv32)
    requires ClassOf(kind).ImmAlu? && !IsShiftImmediate(kind) && FitsSigned12(imm)
    ensures DecodesTo(FormatI(imm, rs1, Funct3Of(kind), rd, OPCODE_IMM), kind, imm)
  {
    hide ImmOperation, Funct3Of, Funct7Of, ClassOf, FormatI, ExtractFunct3, ExtractFunct7, ExtractOpcode, ImmediateI,
         IsShiftImmediate, FitsSigned12;
    var raw := FormatI(imm, rs1, Funct3Of(kind), rd, OPCODE_IMM);
    FieldsOfI(imm, rs1, Funct3Of(kind), rd, OPCODE_IMM);
    ImmediateOfI(imm, rs1, Funct3Of(kind), rd, OPCODE_IMM);
    ImmCodesBack(kind, ExtractFunct7(raw));
  }

  lemma LoadDecodesBack(kind: InstructionKind, rd: bv5, rs1: bv5, imm: bv32)
    requires ClassOf(kind).Load? && FitsSigned12(imm)
    ensures DecodesTo(FormatI(imm, rs1, Funct3Of(kind), rd, OPCODE_LOAD), kind, imm)
  {
    hide LoadKind, Funct3Of, ClassOf, FormatI, ExtractFunct3, ExtractFunct7, ExtractOpcode, ImmediateI, FitsSigned12;
    FieldsOfI(imm, rs1, Funct3Of(kind), rd, OPCODE_LOAD);
    ImmediateOfI(imm, rs1, Funct3Of(kind), rd, OPCODE_LOAD);
    LoadCodesBack(kind);
  }

  lemma StoreDecodesBack(kind: InstructionKind, rs1: bv5, rs2: bv5, imm: bv32)
    requires ClassOf(kind).Store? && FitsSigned12(imm)
    ensures DecodesTo(FormatS(imm, rs2, rs1, Funct3Of(kind), OPCODE_STORE), kind, imm)
  {
    hide StoreKind, Funct3Of, ClassOf, FormatS, ExtractFunct3, ExtractFunct7, ExtractOpcode, ImmediateS, FitsSigned12;
    FieldsOfS(imm, rs2, rs1, Funct3Of(kind), OPCODE_STORE);
    ImmediateOfS(imm, rs2, rs1, Funct3Of(kind), OPCODE_STORE);
    StoreCodesBack(kind);
  }

  lemma BranchDecodesBack(kind: InstructionKind, rs1: bv5, rs2: bv5, imm: bv32)
    requires ClassOf(kind).Branch? && FitsBranch(imm)
    ensures DecodesTo(FormatB(imm, rs2, rs1, Funct3Of(kind), OPCODE_BRANCH), kind, imm)
  {
    hide BranchOperation, Funct3Of, ClassOf, FormatB, ExtractFunct3, ExtractFunct7, ExtractOpcode, ImmediateB,
         FitsBranch;
    FieldsOfB(imm, rs2, rs1, Funct3Of(kind), OPCODE_BRANCH);
    ImmediateOfB(imm, rs2, rs1, Funct3Of(kind), OPCODE_BRANCH);
    BranchCodesBack(kind);
  }

  lemma LuiDecodesBack(rd: bv5, imm: bv32)
    requires FitsUpper(imm)
    ensures DecodesTo(FormatU(imm, rd, OPCODE_LUI), Lui, imm)
  {
    hide FormatU, ExtractFunct3, ExtractFunct7, ExtractOpcode, ImmediateU, FitsUpper;
    FieldsOfU(imm, rd, OPCODE_LUI);
  }

  lemma AuipcDecodesBack(rd: bv5, imm: bv32)
    requires FitsUpper(imm)
    ensures DecodesTo(FormatU(imm, rd, OPCODE_AUIPC), Auipc, imm)
  {
    hide FormatU, ExtractFunct3, ExtractFunct7, ExtractOpcode, ImmediateU, FitsUpper;
    FieldsOfU(imm, rd, OPCODE_AUIPC);
  }

  lemma JumpDecodesBack(rd: bv5, imm: bv32)
    requires FitsJump(imm)
    ensures DecodesTo(FormatJ(imm, rd, OPCODE_JAL), Jal, imm)
  {
    hide FormatJ, ExtractFunct3, ExtractFunct7, ExtractOpcode, ImmediateJ, FitsJump;
    FieldsOfJ(imm, rd, OPCODE_JAL);
    ImmediateOfJ(imm, rd, OPCODE_JAL);
  }

  lemma JumpRegisterDecodesBack(rd: bv5, rs1: bv5, imm: bv32)
    requires FitsSigned12(imm)
    ensures DecodesTo(FormatI(imm, rs1, 0, rd, OPCODE_JALR), Jalr, imm)
  {
    hide FormatI, ExtractFunct3, ExtractFunct7, ExtractOpcode, ImmediateI, FitsSigned12;
    FieldsOfI(imm, rs1, 0, rd, OPCODE_JALR);
    ImmediateOfI(imm, rs1, 0, rd, OPCODE_JALR);
  }

  lemma SystemDecodesBack(kind: InstructionKind, rd: bv5, rs1: bv5, imm: bv32)
    requires ClassOf(kind).System? && imm == if kind.Ecall? then 0 else 1
    ensures DecodesTo(FormatI(imm, rs1, Funct3Of(kind), rd, OPCODE_SYSTEM), kind, imm)
  {
    hide Funct3Of, ClassOf, FormatI, ExtractFunct3, ExtractFunct7, ExtractOpcode, ImmediateI;
    FieldsOfI(imm, rs1, Funct3Of(kind), rd, OPCODE_SYSTEM);
    ImmediateOfI(imm, rs1, Funct3Of(kind), rd, OPCODE_SYSTEM);
    SystemCodesBack(kind);
  }

  // The registers each format has room for

  predicate HasRd(kind: InstructionKind) {
    !ClassOf(kind).Store? && !ClassOf(kind).Branch? && !ClassOf(kind).NoClass?
  }

  predicate HasRs1(kind: InstructionKind) {
    !ClassOf(kind).LoadUpper? && !ClassOf(kind).AddUpperPc? && !ClassOf(kind).Jump? && !ClassOf(kind).NoClass?
  }

  predicate HasRs2(kind: InstructionKind) {
    ClassOf(kind).RegAlu? || ClassOf(kind).Store? || ClassOf(kind).Branch?
  }

  lemma OperationComesBack(kind: InstructionKind, rd: bv5, rs1: bv5, rs2: bv5, imm: bv32)
    requires LegalImmediate(kind, imm)
    ensures DecodesTo(EncodeBits(kind, rd, rs1, rs2, imm), kind, imm)
  {
    hide DecodesTo, ClassOf, Funct3Of, Funct7Of, FormatR, FormatI, FormatS, FormatB, FormatU, FormatJ, FitsSigned12,
         FitsBranch, FitsJump, FitsUpper, IsShiftImmediate;
    SingleCodes();
    KindOfSingleClass(kind);
    match ClassOf(kind)
    case RegAlu => RegDecodesBack(kind, rd, rs1, rs2);
    case ImmAlu =>
      if IsShiftImmediate(kind) {
        ShiftDecodesBack(kind, rd, rs1, imm);
      } else {
        ImmDecodesBack(kind, rd, rs1, imm);
      }
    case Load => LoadDecodesBack(kind, rd, rs1, imm);
    case Store => StoreDecodesBack(kind, rs1, rs2, imm);
    case Branch => BranchDecodesBack(kind, rs1, rs2, imm);
    case LoadUpper => LuiDecodesBack(rd, imm);
    case AddUpperPc => AuipcDecodesBack(rd, imm);
    case Jump => JumpDecodesBack(rd, imm);
    case JumpRegister => JumpRegisterDecodesBack(rd, rs1, imm);
    case System => SystemDecodesBack(kind, rd, rs1, imm);
  }

  lemma KindOfSingleClass(kind: InstructionKind)
    ensures ClassOf(kind).LoadUpper? ==> kind.Lui?
    ensures ClassOf(kind).AddUpperPc? ==> kind.Auipc?
    ensures ClassOf(kind).Jump? ==> kind.Jal?
    ensures ClassOf(kind).JumpRegister? ==> kind.Jalr?
  {
  }

  ghost predicate HoldsRegisters(raw: bv32, kind: InstructionKind, rd: bv5, rs1: bv5, rs2: bv5) {
    && (HasRd(kind) ==> ExtractRd(raw) == rd)
    && (HasRs1(kind) ==> ExtractRs1(raw) == rs1)
    && (HasRs2(kind) ==> ExtractRs2(raw) == rs2)
  }

  lemma RHoldsRegisters(kind: InstructionKind, rd: bv5, rs1: bv5, rs2: bv5, funct7: bv7, funct3: bv3, opcode: bv7)
    ensures HoldsRegisters(FormatR(funct7, rs2, rs1, funct3, rd, opcode), kind, rd, rs1, rs2)
  {
    hide ClassOf, FormatR, ExtractRd, ExtractRs1, ExtractRs2;
    FieldsOfR(funct7, rs2, rs1, funct3, rd, opcode);
  }

  lemma ShiftHoldsRegisters(kind: InstructionKind, rd: bv5, rs1: bv5, rs2: bv5, amount: bv5, funct7: bv7, funct3: bv3,
                            opcode: bv7)
    requires !HasRs2(kind)
    ensures HoldsRegisters(FormatR(funct7, amount, rs1, funct3, rd, opcode), kind, rd, rs1, rs2)
  {
    hide ClassOf, FormatR, ExtractRd, ExtractRs1, ExtractRs2;
    FieldsOfR(funct7, amount, rs1, funct3, rd, opcode);
  }

  lemma IHoldsRegisters(kind: InstructionKind, rd: bv5, rs1: bv5, rs2: bv5, imm: bv32, funct3: bv3, opcode: bv7)
    requires !HasRs2(kind)
    ensures HoldsRegisters(FormatI(imm, rs1, funct3, rd, opcode), kind, rd, rs1, rs2)
  {
    hide ClassOf, FormatI, ExtractRd, ExtractRs1, ExtractRs2;
    FieldsOfI(imm, rs1, funct3, rd, opcode);
  }

  lemma SAndBHoldRegisters(kind: InstructionKind, rd: bv5, rs1: bv5, rs2: bv5, imm: bv32, funct3: bv3)
    requires !HasRd(kind)
    ensures HoldsRegisters(FormatS(imm, rs2, rs1, funct3, OPCODE_STORE), kind, rd, rs1, rs2)
    ensures HoldsRegisters(FormatB(imm, rs2, rs1, funct3, OPCODE_BRANCH), kind, rd, rs1, rs2)
  {
    hide ClassOf, FormatS, FormatB, ExtractRd, ExtractRs1, ExtractRs2;
    FieldsOfS(imm, rs2, rs1, funct3, OPCODE_STORE);
    FieldsOfB(imm, rs2, rs1, funct3, OPCODE_BRANCH);
  }

  lemma UAndJHoldRegisters(kind: InstructionKind, rd: bv5, rs1: bv5, rs2: bv5, imm: bv32, opcode: bv7)
    requires !HasRs1(kind) && !HasRs2(kind)
    ensures HoldsRegisters(FormatU(imm, rd, opcode), kind, rd, rs1, rs2)
    ensures HoldsRegisters(FormatJ(imm, rd, opcode), kind, rd, rs1, rs2)
  {
    hide ClassOf, FormatU, FormatJ, ExtractRd, ExtractRs1, ExtractRs2;
    FieldsOfU(imm, rd, opcode);
    FieldsOfJ(imm, rd, opcode);
  }

  lemma ArithmeticRegistersComeBack(kind: InstructionKind, rd: bv5, rs1: bv5, rs2: bv5, imm: bv32)
    requires ClassOf(kind).RegAlu? || ClassOf(kind).ImmAlu?
    ensures HoldsRegisters(EncodeBits(kind, rd, rs1, rs2, imm), kind, rd, rs1, rs2)
  {
    hide HoldsRegisters, ClassOf, Funct3Of, Funct7Of, FormatR, FormatI, FormatS, FormatB, FormatU, FormatJ,
         IsShiftImmediate;
    var funct3, funct7 := Funct3Of(kind), Funct7Of(kind);
    RHoldsRegisters(kind, rd, rs1, rs2, funct7, funct3, OPCODE_REG);
    if ClassOf(kind).ImmAlu? {
      ShiftHoldsRegisters(kind, rd, rs1, rs2, (imm & 0x1F) as bv5, funct7, funct3, OPCODE_IMM);
      IHoldsRegisters(kind, rd, rs1, rs2, imm, funct3, OPCODE_IMM);
    }
  }

  lemma IRegistersComeBack(kind: InstructionKind, rd: bv5, rs1: bv5, rs2: bv5, imm: bv32)
    requires ClassOf(kind).Load? || ClassOf(kind).JumpRegister? || ClassOf(kind).System?
    ensures HoldsRegisters(EncodeBits(kind, rd, rs1, rs2, imm), kind, rd, rs1, rs2)
  {
    hide HoldsRegisters, ClassOf, Funct3Of, Funct7Of, FormatR, FormatI, FormatS, FormatB, FormatU, FormatJ,
         IsShiftImmediate;
    var funct3 := Funct3Of(kind);
    IHoldsRegisters(kind, rd, rs1, rs2, imm, funct3, OPCODE_LOAD);
    IHoldsRegisters(kind, rd, rs1, rs2, imm, funct3, OPCODE_JALR);
    IHoldsRegisters(kind, rd, rs1, rs2, imm, funct3, OPCODE_SYSTEM);
  }

  lemma OtherRegistersComeBack(kind: InstructionKind, rd: bv5, rs1: bv5, rs2: bv5, imm: bv32)
    requires ClassOf(kind).Store? || ClassOf(kind).Branch? || ClassOf(kind).LoadUpper? || ClassOf(kind).AddUpperPc?
          || ClassOf(kind).Jump?
    ensures HoldsRegisters(EncodeBits(kind, rd, rs1, rs2, imm), kind, rd, rs1, rs2)
  {
    hide HoldsRegisters, ClassOf, Funct3Of, Funct7Of, FormatR, FormatI, FormatS, FormatB, FormatU, FormatJ,
         IsShiftImmediate;
    if ClassOf(kind).Store? || ClassOf(kind).Branch? {
      SAndBHoldRegisters(kind, rd, rs1, rs2, imm, Funct3Of(kind));
    } else {
      UAndJHoldRegisters(kind, rd, rs1, rs2, imm, OPCODE_LUI);
      UAndJHoldRegisters(kind, rd, rs1, rs2, imm, OPCODE_AUIPC);
      UAndJHoldRegisters(kind, rd, rs1, rs2, imm, OPCODE_JAL);
    }
  }

  lemma RegistersComeBack(kind: InstructionKind, rd: bv5, rs1: bv5, rs2: bv5, imm: bv32)
    requires LegalImmediate(kind, imm)
    ensures HoldsRegisters(EncodeBits(kind, rd, rs1, rs2, imm), kind, rd, rs1, rs2)
  {
    hide EncodeBits, HoldsRegisters, ClassOf, FitsSigned12, FitsBranch, FitsJump, FitsUpper, IsShiftImmediate;
    match ClassOf(kind)
    case RegAlu | ImmAlu => ArithmeticRegistersComeBack(kind, rd, rs1, rs2, imm);
    case Load | JumpRegister | System => IRegistersComeBack(kind, rd, rs1, rs2, imm);
    case _ => OtherRegistersComeBack(kind, rd, rs1, rs2, imm);
  }

  /** Every legal instruction comes back from its encoding, with every register its format has room for. */
  lemma EncodeThenDecode(kind: InstructionKind, rd: RegIndex, rs1: RegIndex, rs2: RegIndex, imm: Word)
    requires LegalImmediate(kind, imm.bits)
    ensures var d := DecodeInstruction(Encode(kind, rd, rs1, rs2, imm));
            && d.kind == kind && d.immediate == imm
            && (HasRd(kind) ==> d.rd == rd)
            && (HasRs1(kind) ==> d.rs1 == rs1)
            && (HasRs2(kind) ==> d.rs2 == rs2)
  {
    hide EncodeBits, LegalImmediate, DecodeOperation, ExtractRd, ExtractRs1, ExtractRs2, HasRd, HasRs1, HasRs2;
    OperationComesBack(kind, rd.number, rs1.number, rs2.number, imm.bits);
    RegistersComeBack(kind, rd.number, rs1.number, rs2.number, imm.bits);
    assert HoldsRegisters(Encode(kind, rd, rs1, rs2, imm).bits, kind, rd.number, rs1.number, rs2.number);
  }

  /** The decoder accepts exactly the words that encode a legal instruction. */
  lemma ValidWordsAreEncodings(word: Word)
    ensures DecodeInstruction(word).IsValid() <==>
            exists kind: InstructionKind, rd: RegIndex, rs1: RegIndex, rs2: RegIndex, imm: Word ::
              LegalImmediate(kind, imm.bits) && Encode(kind, rd, rs1, rs2, imm) == word
  {
    hide Encode, DecodeInstruction;
    if DecodeInstruction(word).IsValid() {
      DecodeThenEncode(word);
    }
    forall kind: InstructionKind, rd: RegIndex, rs1: RegIndex, rs2: RegIndex, imm: Word
      | LegalImmediate(kind, imm.bits) && Encode(kind, rd, rs1, rs2, imm) == word
      ensures DecodeInstruction(word).IsValid()
    {
      EncodeThenDecode(kind, rd, rs1, rs2, imm);
      assert !kind.Invalid?;
    }
  }
}
