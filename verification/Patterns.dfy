/**
 * Which words are which instructions, from the listing of RV32I in chapter 24 of the RISC-V Unprivileged ISA
 * (20191213): the codes that each instruction has in its fields. Ecall and ebreak leave rd and rs1 open, as the
 * simulator does. Nothing here uses the decoder's constants, and the decoder agrees with the listing on every word.
 */
module Patterns {
  import opened Words
  import opened Decoder
  import opened PipelineRegisters
  import opened Instruction

  /** The codes in bits 6 to 0 and, if they are fixed, in bits 14 to 12 and in bits 31 to 25 or 31 to 20. */
  datatype Row =
    | Short(opcode: bv7)
    | Codes(opcode: bv7, funct3: bv3)
    | LongCodes(opcode: bv7, funct3: bv3, funct7: bv7)
    | SystemCodes(opcode: bv7, funct3: bv3, funct12: bv12)

  function Listing(kind: InstructionKind): Row
    requires !kind.Invalid?
  {
    match kind
    case Lui => Short(0x37)
    case Auipc => Short(0x17)
    case Jal => Short(0x6F)
    case Jalr => Codes(0x67, 0)
    case Beq => Codes(0x63, 0)
    case Bne => Codes(0x63, 1)
    case Blt => Codes(0x63, 4)
    case Bge => Codes(0x63, 5)
    case Bltu => Codes(0x63, 6)
    case Bgeu => Codes(0x63, 7)
    case Lb => Codes(0x03, 0)
    case Lh => Codes(0x03, 1)
    case Lw => Codes(0x03, 2)
    case Lbu => Codes(0x03, 4)
    case Lhu => Codes(0x03, 5)
    case Sb => Codes(0x23, 0)
    case Sh => Codes(0x23, 1)
    case Sw => Codes(0x23, 2)
    case Addi => Codes(0x13, 0)
    case Slti => Codes(0x13, 2)
    case Sltiu => Codes(0x13, 3)
    case Xori => Codes(0x13, 4)
    case Ori => Codes(0x13, 6)
    case Andi => Codes(0x13, 7)
    case Slli => LongCodes(0x13, 1, 0x00)
    case Srli => LongCodes(0x13, 5, 0x00)
    case Srai => LongCodes(0x13, 5, 0x20)
    case Add => LongCodes(0x33, 0, 0x00)
    case Sub => LongCodes(0x33, 0, 0x20)
    case Sll => LongCodes(0x33, 1, 0x00)
    case Slt => LongCodes(0x33, 2, 0x00)
    case Sltu => LongCodes(0x33, 3, 0x00)
    case Xor => LongCodes(0x33, 4, 0x00)
    case Srl => LongCodes(0x33, 5, 0x00)
    case Sra => LongCodes(0x33, 5, 0x20)
    case Or => LongCodes(0x33, 6, 0x00)
    case And => LongCodes(0x33, 7, 0x00)
    case Ecall => SystemCodes(0x73, 0, 0)
    case Ebreak => SystemCodes(0x73, 0, 1)
  }

  /** The fields of a word, by their bits. */
  function OpcodeField(w: bv32): bv7 {
    (w & 0x7F) as bv7
  }

  function Funct3Field(w: bv32): bv3 {
    ((w >> 12) & 7) as bv3
  }

  function Funct7Field(w: bv32): bv7 {
    (w >> 25) as bv7
  }

  function Funct12Field(w: bv32): bv12 {
    (w >> 20) as bv12
  }

  predicate Fits(w: bv32, row: Row) {
    && OpcodeField(w) == row.opcode
    && (!row.Short? ==> Funct3Field(w) == row.funct3)
    && (row.LongCodes? ==> Funct7Field(w) == row.funct7)
    && (row.SystemCodes? ==> Funct12Field(w) == row.funct12)
  }

  lemma FieldsExtracted(w: bv32)
    ensures ExtractOpcode(w) == OpcodeField(w) && ExtractFunct3(w) == Funct3Field(w)
    ensures ExtractFunct7(w) == Funct7Field(w)
  {
  }

  lemma SystemCode(w: bv32)
    ensures ImmediateI(w) == 0 <==> Funct12Field(w) == 0
    ensures ImmediateI(w) == 1 <==> Funct12Field(w) == 1
  {
  }

  // The decoder

  // From codes to rows

  lemma RowOfReg(funct3: bv3, funct7: bv7)
    ensures var kind := DecodeReg(funct3, funct7).kind;
            kind.Invalid? || (ClassOf(kind).RegAlu? && Listing(kind) == LongCodes(0x33, funct3, funct7))
  {
  }

  lemma RowOfImm(funct3: bv3, funct7: bv7, imm: bv32)
    ensures var kind := DecodeImm(funct3, funct7, imm).kind;
            kind.Invalid? || (ClassOf(kind).ImmAlu? && (Listing(kind) == Codes(0x13, funct3)
                                                        || Listing(kind) == LongCodes(0x13, funct3, funct7)))
  {
  }

  lemma RowOfLoad(funct3: bv3, imm: bv32)
    ensures var kind := DecodeLoad(funct3, imm).kind;
            kind.Invalid? || (ClassOf(kind).Load? && Listing(kind) == Codes(0x03, funct3))
  {
  }

  lemma RowOfStore(funct3: bv3, imm: bv32)
    ensures var kind := DecodeStore(funct3, imm).kind;
            kind.Invalid? || (ClassOf(kind).Store? && Listing(kind) == Codes(0x23, funct3))
  {
  }

  lemma RowOfBranch(funct3: bv3, imm: bv32)
    ensures var kind := DecodeBranch(funct3, imm).kind;
            kind.Invalid? || (ClassOf(kind).Branch? && Listing(kind) == Codes(0x63, funct3))
  {
  }

  lemma RowOfJumpRegister(funct3: bv3, imm: bv32)
    ensures var kind := DecodeJalr(funct3, imm).kind;
            kind.Invalid? || (ClassOf(kind).JumpRegister? && Listing(kind) == Codes(0x67, funct3))
  {
  }

  lemma RowOfSystem(funct3: bv3, imm: bv32)
    ensures var kind := DecodeSystem(funct3, imm).kind;
            kind.Invalid?
            || (ClassOf(kind).System? && imm < 2 && Listing(kind) == SystemCodes(0x73, funct3, imm as bv12))
  {
  }

  lemma RowsOfOthers(imm: bv32)
    ensures var kind := DecodeLui(imm).kind; ClassOf(kind).LoadUpper? && Listing(kind) == Short(0x37)
    ensures var kind := DecodeAuipc(imm).kind;
            ClassOf(kind).AddUpperPc? && Listing(kind) == Short(0x17)
    ensures var kind := DecodeJal(imm).kind; ClassOf(kind).Jump? && Listing(kind) == Short(0x6F)
  {
  }

  // From rows to codes

  lemma RegTable()
    ensures DecodeReg(0, 0x00).kind == Add && DecodeReg(0, 0x20).kind == Sub
    ensures DecodeReg(1, 0x00).kind == Sll && DecodeReg(2, 0x00).kind == Slt
    ensures DecodeReg(3, 0x00).kind == Sltu && DecodeReg(4, 0x00).kind == Xor
    ensures DecodeReg(5, 0x00).kind == Srl && DecodeReg(5, 0x20).kind == Sra
    ensures DecodeReg(6, 0x00).kind == Or && DecodeReg(7, 0x00).kind == And
  {
  }

  lemma ImmTable(funct7: bv7, imm: bv32)
    ensures DecodeImm(0, funct7, imm).kind == Addi && DecodeImm(2, funct7, imm).kind == Slti
    ensures DecodeImm(3, funct7, imm).kind == Sltiu && DecodeImm(4, funct7, imm).kind == Xori
    ensures DecodeImm(6, funct7, imm).kind == Ori && DecodeImm(7, funct7, imm).kind == Andi
  {
    hide AluImmControl;
  }

  lemma ShiftTable(imm: bv32)
    ensures DecodeImm(1, 0x00, imm).kind == Slli
    ensures DecodeImm(5, 0x00, imm).kind == Srli && DecodeImm(5, 0x20, imm).kind == Srai
  {
    hide AluImmControl;
  }

  lemma LoadTable(imm: bv32)
    ensures DecodeLoad(0, imm).kind == Lb && DecodeLoad(1, imm).kind == Lh
    ensures DecodeLoad(2, imm).kind == Lw && DecodeLoad(4, imm).kind == Lbu
    ensures DecodeLoad(5, imm).kind == Lhu
  {
  }

  lemma StoreTable(imm: bv32)
    ensures DecodeStore(0, imm).kind == Sb && DecodeStore(1, imm).kind == Sh
    ensures DecodeStore(2, imm).kind == Sw
  {
  }

  lemma BranchTable(imm: bv32)
    ensures DecodeBranch(0, imm).kind == Beq && DecodeBranch(1, imm).kind == Bne
    ensures DecodeBranch(4, imm).kind == Blt && DecodeBranch(5, imm).kind == Bge
    ensures DecodeBranch(6, imm).kind == Bltu && DecodeBranch(7, imm).kind == Bgeu
  {
  }

  lemma OtherTable(imm: bv32)
    ensures DecodeLui(imm).kind == Lui && DecodeAuipc(imm).kind == Auipc && DecodeJal(imm).kind == Jal
    ensures DecodeJalr(0, imm).kind == Jalr
    ensures DecodeSystem(0, 0).kind == Ecall && DecodeSystem(0, 1).kind == Ebreak
  {
  }

  /** What each opcode selects. */
  lemma OpcodeSelects(w: bv32)
    ensures var operation, opcode := DecodeOperation(w), ExtractOpcode(w);
            var funct3, funct7 := ExtractFunct3(w), ExtractFunct7(w);
            && (opcode == 0x33 ==> operation == DecodeReg(funct3, funct7))
            && (opcode == 0x13 ==> operation == DecodeImm(funct3, funct7, ImmediateI(w)))
            && (opcode == 0x03 ==> operation == DecodeLoad(funct3, ImmediateI(w)))
            && (opcode == 0x23 ==> operation == DecodeStore(funct3, ImmediateS(w)))
            && (opcode == 0x63 ==> operation == DecodeBranch(funct3, ImmediateB(w)))
            && (opcode == 0x37 ==> operation == DecodeLui(ImmediateU(w)))
            && (opcode == 0x17 ==> operation == DecodeAuipc(ImmediateU(w)))
            && (opcode == 0x6F ==> operation == DecodeJal(ImmediateJ(w)))
            && (opcode == 0x67 ==> operation == DecodeJalr(funct3, ImmediateI(w)))
            && (opcode == 0x73 ==> operation == DecodeSystem(funct3, ImmediateI(w)))
  {
    hide ExtractOpcode, ExtractFunct3, ExtractFunct7, ImmediateI, ImmediateS, ImmediateB, ImmediateU, ImmediateJ,
         DecodeReg, DecodeImm, DecodeLoad, DecodeStore, DecodeBranch, DecodeLui, DecodeAuipc, DecodeJal, DecodeJalr,
         DecodeSystem;
  }

  lemma UnknownOpcode(w: bv32)
    ensures var opcode := ExtractOpcode(w);
            opcode !in [0x33, 0x13, 0x03, 0x23, 0x63, 0x37, 0x17, 0x6F, 0x67, 0x73] ==>
              DecodeOperation(w).kind.Invalid?
  {
    hide ExtractOpcode, ExtractFunct3, ExtractFunct7, ImmediateI, ImmediateS, ImmediateB, ImmediateU, ImmediateJ,
         DecodeReg, DecodeImm, DecodeLoad, DecodeStore, DecodeBranch, DecodeLui, DecodeAuipc, DecodeJal, DecodeJalr,
         DecodeSystem;
  }

  /** A valid word fits the row of its kind. */
  lemma KindFits(w: bv32)
    ensures var kind := DecodeOperation(w).kind; !kind.Invalid? ==> Fits(w, Listing(kind))
  {
    var opcode, funct3, funct7 := ExtractOpcode(w), ExtractFunct3(w), ExtractFunct7(w);
    hide DecodeOperation, ExtractOpcode, ExtractFunct3, ExtractFunct7, ImmediateI, ImmediateS, ImmediateB, ImmediateU,
         ImmediateJ, DecodeReg, DecodeImm, DecodeLoad, DecodeStore, DecodeBranch, DecodeLui, DecodeAuipc, DecodeJal,
         DecodeJalr, DecodeSystem, Listing, OpcodeField, Funct3Field, Funct7Field, Funct12Field, ClassOf;
    FieldsExtracted(w);
    SystemCode(w);
    OpcodeSelects(w);
    UnknownOpcode(w);
    RowOfReg(funct3, funct7);
    RowOfImm(funct3, funct7, ImmediateI(w));
    RowOfLoad(funct3, ImmediateI(w));
    RowOfStore(funct3, ImmediateS(w));
    RowOfBranch(funct3, ImmediateB(w));
    RowOfJumpRegister(funct3, ImmediateI(w));
    RowOfSystem(funct3, ImmediateI(w));
    RowsOfOthers(ImmediateU(w));
    RowsOfOthers(ImmediateJ(w));
  }

  lemma RegFit(w: bv32, kind: InstructionKind)
    requires kind.Add? || kind.Sub? || kind.Sll? || kind.Slt? || kind.Sltu? || kind.Xor? || kind.Srl? ||
         kind.Sra? || kind.Or? || kind.And?
    requires Fits(w, Listing(kind))
    ensures DecodeOperation(w).kind == kind
  {
    hide DecodeOperation, ExtractOpcode, ExtractFunct3, ExtractFunct7, ImmediateI, ImmediateS, ImmediateB, ImmediateU,
         ImmediateJ, DecodeReg, DecodeImm, DecodeLoad, DecodeStore, DecodeBranch, DecodeLui, DecodeAuipc, DecodeJal,
         DecodeJalr, DecodeSystem, OpcodeField, Funct3Field, Funct7Field, Funct12Field;
    FieldsExtracted(w);
    OpcodeSelects(w);
    RegTable();
  }

  lemma ImmFit(w: bv32, kind: InstructionKind)
    requires kind.Addi? || kind.Slti? || kind.Sltiu? || kind.Xori? || kind.Ori? || kind.Andi?
    requires Fits(w, Listing(kind))
    ensures DecodeOperation(w).kind == kind
  {
    hide DecodeOperation, ExtractOpcode, ExtractFunct3, ExtractFunct7, ImmediateI, ImmediateS, ImmediateB, ImmediateU,
         ImmediateJ, DecodeReg, DecodeImm, DecodeLoad, DecodeStore, DecodeBranch, DecodeLui, DecodeAuipc, DecodeJal,
         DecodeJalr, DecodeSystem, OpcodeField, Funct3Field, Funct7Field, Funct12Field;
    FieldsExtracted(w);
    OpcodeSelects(w);
    ImmTable(ExtractFunct7(w), ImmediateI(w));
  }

  lemma ShiftFit(w: bv32, kind: InstructionKind)
    requires kind.Slli? || kind.Srli? || kind.Srai?
    requires Fits(w, Listing(kind))
    ensures DecodeOperation(w).kind == kind
  {
    hide DecodeOperation, ExtractOpcode, ExtractFunct3, ExtractFunct7, ImmediateI, ImmediateS, ImmediateB, ImmediateU,
         ImmediateJ, DecodeReg, DecodeImm, DecodeLoad, DecodeStore, DecodeBranch, DecodeLui, DecodeAuipc, DecodeJal,
         DecodeJalr, DecodeSystem, OpcodeField, Funct3Field, Funct7Field, Funct12Field;
    FieldsExtracted(w);
    OpcodeSelects(w);
    ShiftTable(ImmediateI(w));
  }

  lemma LoadFit(w: bv32, kind: InstructionKind)
    requires kind.Lb? || kind.Lh? || kind.Lw? || kind.Lbu? || kind.Lhu?
    requires Fits(w, Listing(kind))
    ensures DecodeOperation(w).kind == kind
  {
    hide DecodeOperation, ExtractOpcode, ExtractFunct3, ExtractFunct7, ImmediateI, ImmediateS, ImmediateB, ImmediateU,
         ImmediateJ, DecodeReg, DecodeImm, DecodeLoad, DecodeStore, DecodeBranch, DecodeLui, DecodeAuipc, DecodeJal,
         DecodeJalr, DecodeSystem, OpcodeField, Funct3Field, Funct7Field, Funct12Field;
    FieldsExtracted(w);
    OpcodeSelects(w);
    LoadTable(ImmediateI(w));
  }

  lemma StoreFit(w: bv32, kind: InstructionKind)
    requires kind.Sb? || kind.Sh? || kind.Sw?
    requires Fits(w, Listing(kind))
    ensures DecodeOperation(w).kind == kind
  {
    hide DecodeOperation, ExtractOpcode, ExtractFunct3, ExtractFunct7, ImmediateI, ImmediateS, ImmediateB, ImmediateU,
         ImmediateJ, DecodeReg, DecodeImm, DecodeLoad, DecodeStore, DecodeBranch, DecodeLui, DecodeAuipc, DecodeJal,
         DecodeJalr, DecodeSystem, OpcodeField, Funct3Field, Funct7Field, Funct12Field;
    FieldsExtracted(w);
    OpcodeSelects(w);
    StoreTable(ImmediateS(w));
  }

  lemma BranchFit(w: bv32, kind: InstructionKind)
    requires kind.Beq? || kind.Bne? || kind.Blt? || kind.Bge? || kind.Bltu? || kind.Bgeu?
    requires Fits(w, Listing(kind))
    ensures DecodeOperation(w).kind == kind
  {
    hide DecodeOperation, ExtractOpcode, ExtractFunct3, ExtractFunct7, ImmediateI, ImmediateS, ImmediateB, ImmediateU,
         ImmediateJ, DecodeReg, DecodeImm, DecodeLoad, DecodeStore, DecodeBranch, DecodeLui, DecodeAuipc, DecodeJal,
         DecodeJalr, DecodeSystem, OpcodeField, Funct3Field, Funct7Field, Funct12Field;
    FieldsExtracted(w);
    OpcodeSelects(w);
    BranchTable(ImmediateB(w));
  }

  lemma SystemFit(w: bv32, kind: InstructionKind)
    requires kind.Ecall? || kind.Ebreak?
    requires Fits(w, Listing(kind))
    ensures DecodeOperation(w).kind == kind
  {
    hide DecodeOperation, ExtractOpcode, ExtractFunct3, ExtractFunct7, ImmediateI, ImmediateS, ImmediateB, ImmediateU,
         ImmediateJ, DecodeReg, DecodeImm, DecodeLoad, DecodeStore, DecodeBranch, DecodeLui, DecodeAuipc, DecodeJal,
         DecodeJalr, DecodeSystem, OpcodeField, Funct3Field, Funct7Field, Funct12Field;
    FieldsExtracted(w);
    OpcodeSelects(w);
    SystemCode(w);
    OtherTable(ImmediateI(w));
  }

  lemma UpperFit(w: bv32, kind: InstructionKind)
    requires kind.Lui? || kind.Auipc?
    requires Fits(w, Listing(kind))
    ensures DecodeOperation(w).kind == kind
  {
    hide DecodeOperation, ExtractOpcode, ExtractFunct3, ExtractFunct7, ImmediateI, ImmediateS, ImmediateB, ImmediateU,
         ImmediateJ, DecodeReg, DecodeImm, DecodeLoad, DecodeStore, DecodeBranch, DecodeLui, DecodeAuipc, DecodeJal,
         DecodeJalr, DecodeSystem, OpcodeField, Funct3Field, Funct7Field, Funct12Field;
    FieldsExtracted(w);
    OpcodeSelects(w);
    OtherTable(ImmediateU(w));
  }

  lemma JumpFit(w: bv32, kind: InstructionKind)
    requires kind.Jal? || kind.Jalr?
    requires Fits(w, Listing(kind))
    ensures DecodeOperation(w).kind == kind
  {
    hide DecodeOperation, ExtractOpcode, ExtractFunct3, ExtractFunct7, ImmediateI, ImmediateS, ImmediateB, ImmediateU,
         ImmediateJ, DecodeReg, DecodeImm, DecodeLoad, DecodeStore, DecodeBranch, DecodeLui, DecodeAuipc, DecodeJal,
         DecodeJalr, DecodeSystem, OpcodeField, Funct3Field, Funct7Field, Funct12Field;
    FieldsExtracted(w);
    OpcodeSelects(w);
    OtherTable(ImmediateJ(w));
    OtherTable(ImmediateI(w));
  }

  /** A word that fits a row is of its kind. */
  lemma FitMeansKind(w: bv32, kind: InstructionKind)
    requires !kind.Invalid? && Fits(w, Listing(kind))
    ensures DecodeOperation(w).kind == kind
  {
    hide DecodeOperation, Fits, Listing;
    match kind {
      case Lui | Auipc => UpperFit(w, kind);
      case Jal | Jalr => JumpFit(w, kind);
      case Ecall | Ebreak => SystemFit(w, kind);
      case Lb | Lh | Lw | Lbu | Lhu => LoadFit(w, kind);
      case Sb | Sh | Sw => StoreFit(w, kind);
      case Beq | Bne | Blt | Bge | Bltu | Bgeu => BranchFit(w, kind);
      case Addi | Slti | Sltiu | Xori | Ori | Andi => ImmFit(w, kind);
      case Slli | Srli | Srai => ShiftFit(w, kind);
      case Add | Sub | Sll | Slt | Sltu | Xor | Srl | Sra | Or | And => RegFit(w, kind);
    }
  }

  lemma KindOfOperation(w: Word)
    ensures DecodeInstruction(w).kind == DecodeOperation(w.bits).kind
  {
    hide DecodeOperation, FormatOf, ExtractOpcode, ExtractRd, ExtractRs1, ExtractRs2, ExtractFunct3, ExtractFunct7;
  }

  /** A word decodes as an instruction exactly if it has the codes of that instruction's row. */
  lemma KindIsItsRow(w: Word, kind: InstructionKind)
    requires !kind.Invalid?
    ensures DecodeInstruction(w).kind == kind <==> Fits(w.bits, Listing(kind))
  {
    hide DecodeInstruction, DecodeOperation, Fits, Listing;
    KindOfOperation(w);
    KindFits(w.bits);
    if Fits(w.bits, Listing(kind)) {
      FitMeansKind(w.bits, kind);
    }
  }

  /** The fields of a decoded word are its bits. */
  lemma DecodedFields(w: Word)
    ensures var d := DecodeInstruction(w);
            && d.raw == w && d.opcode as bv32 == w.bits & 0x7F
            && d.rd.number as bv32 == (w.bits >> 7) & 0x1F && d.funct3 as bv32 == (w.bits >> 12) & 7
            && d.rs1.number as bv32 == (w.bits >> 15) & 0x1F && d.rs2.number as bv32 == (w.bits >> 20) & 0x1F
            && d.funct7 as bv32 == w.bits >> 25
  {
    hide DecodeOperation, FormatOf;
  }

  /** The format that goes with an opcode. */
  function FormatOfOpcode(opcode: bv7): InstructionFormat {
    if opcode == 0x33 then RFormat
    else if opcode in [0x13, 0x03, 0x67, 0x73] then IFormat
    else if opcode == 0x23 then SFormat
    else if opcode == 0x63 then BFormat
    else if opcode in [0x37, 0x17] then UFormat
    else if opcode == 0x6F then JFormat
    else UnknownFormat
  }

  lemma DecodedFormat(w: Word)
    ensures DecodeInstruction(w).format == FormatOfOpcode(OpcodeField(w.bits))
  {
    hide DecodeOperation, ExtractOpcode, ExtractRd, ExtractRs1, ExtractRs2, ExtractFunct3, ExtractFunct7, OpcodeField;
    FieldsExtracted(w.bits);
  }
}
