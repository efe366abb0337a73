/** Instruction classification and control-signal construction (src/instruction.cpp). */
module Instruction {
  import opened Words
  import opened PipelineRegisters
  import opened Decoder

  datatype InstructionKind =
    | Invalid
    | Add | Sub | Sll | Slt | Sltu | Xor | Srl | Sra | Or | And
    | Addi | Slti | Sltiu | Xori | Ori | Andi | Slli | Srli | Srai
    | Lb | Lh | Lw | Lbu | Lhu
    | Sb | Sh | Sw
    | Beq | Bne | Blt | Bge | Bltu | Bgeu
    | Lui | Auipc | Jal | Jalr | Ecall | Ebreak

  datatype DecodedInstruction = DecodedInstruction(
    kind: InstructionKind,
    format: InstructionFormat,
    raw: Word,
    opcode: bv7,
    rd: RegIndex,
    rs1: RegIndex,
    rs2: RegIndex,
    funct3: bv3,
    funct7: bv7,
    immediate: Word,
    control: ControlSignals)
  {
    predicate IsValid() {
      !kind.Invalid?
    }
  }

  const OPCODE_LOAD: bv7 := 0x03
  const OPCODE_IMM: bv7 := 0x13
  const OPCODE_AUIPC: bv7 := 0x17
  const OPCODE_STORE: bv7 := 0x23
  const OPCODE_REG: bv7 := 0x33
  const OPCODE_LUI: bv7 := 0x37
  const OPCODE_BRANCH: bv7 := 0x63
  const OPCODE_JALR: bv7 := 0x67
  const OPCODE_JAL: bv7 := 0x6F
  const OPCODE_SYSTEM: bv7 := 0x73

  /** The part of a decoded instruction that the opcode and function fields select. */
  datatype Operation = Operation(kind: InstructionKind, immediate: Word, control: ControlSignals)

  function AluRegControl(op: AluOp): ControlSignals {
    NO_CONTROL.(regWrite := true, aluOp := op, writebackSource := Alu)
  }

  function AluImmControl(op: AluOp): ControlSignals {
    AluRegControl(op).(aluSrcImm := true)
  }

  function WithMemoryWidth(control: ControlSignals, funct3: bv3): ControlSignals {
    var width := if funct3 == 0 || funct3 == 4 then ByteAccess
                 else if funct3 == 1 || funct3 == 5 then HalfWordAccess
                 else if funct3 == 2 then WordAccess
                 else NoAccess;
    control.(memoryWidth := width, memUnsigned := funct3 == 4 || funct3 == 5)
  }

  function RegOperation(funct3: bv3, funct7: bv7): Option<(InstructionKind, AluOp)> {
    if funct3 == 0 && funct7 == 0x00 then Some((Add, AluAdd))
    else if funct3 == 0 && funct7 == 0x20 then Some((Sub, AluSub))
    else if funct3 == 1 && funct7 == 0x00 then Some((Sll, AluSll))
    else if funct3 == 2 && funct7 == 0x00 then Some((Slt, AluSlt))
    else if funct3 == 3 && funct7 == 0x00 then Some((Sltu, AluSltu))
    else if funct3 == 4 && funct7 == 0x00 then Some((Xor, AluXor))
    else if funct3 == 5 && funct7 == 0x00 then Some((Srl, AluSrl))
    else if funct3 == 5 && funct7 == 0x20 then Some((Sra, AluSra))
    else if funct3 == 6 && funct7 == 0x00 then Some((Or, AluOr))
    else if funct3 == 7 && funct7 == 0x00 then Some((And, AluAnd))
    else None
  }

  function DecodeReg(funct3: bv3, funct7: bv7): Operation {
    match RegOperation(funct3, funct7)
    case Some((kind, op)) => Operation(kind, ZERO, AluRegControl(op))
    case None => Operation(Invalid, ZERO, NO_CONTROL)
  }

  function ImmOperation(funct3: bv3, funct7: bv7): Option<(InstructionKind, AluOp)> {
    if funct3 == 0 then Some((Addi, AluAdd))
    else if funct3 == 2 then Some((Slti, AluSlt))
    else if funct3 == 3 then Some((Sltiu, AluSltu))
    else if funct3 == 4 then Some((Xori, AluXor))
    else if funct3 == 6 then Some((Ori, AluOr))
    else if funct3 == 7 then Some((Andi, AluAnd))
    else if funct3 == 1 && funct7 == 0x00 then Some((Slli, AluSll))
    else if funct3 == 5 && funct7 == 0x00 then Some((Srli, AluSrl))
    else if funct3 == 5 && funct7 == 0x20 then Some((Srai, AluSra))
    else None
  }

  /** The shifts keep only the five-bit shift amount of their immediate. */
  function DecodeImm(funct3: bv3, funct7: bv7, imm: bv32): Operation {
    match ImmOperation(funct3, funct7)
    case Some((kind, op)) =>
      Operation(kind, Word(if funct3 == 1 || funct3 == 5 then imm & 0x1F else imm), AluImmControl(op))
    case None => Operation(Invalid, Word(imm), NO_CONTROL)
  }

  function LoadKind(funct3: bv3): InstructionKind {
    if funct3 == 0 then Lb
    else if funct3 == 1 then Lh
    else if funct3 == 2 then Lw
    else if funct3 == 4 then Lbu
    else if funct3 == 5 then Lhu
    else Invalid
  }

  function DecodeLoad(funct3: bv3, imm: bv32): Operation {
    var kind := LoadKind(funct3);
    var control := WithMemoryWidth(
      NO_CONTROL.(regWrite := true, memRead := true, aluSrcImm := true, aluOp := AluAdd, writebackSource := Memory),
      funct3);
    Operation(kind, Word(imm), if kind.Invalid? then NO_CONTROL else control)
  }

  function StoreKind(funct3: bv3): InstructionKind {
    if funct3 == 0 then Sb
    else if funct3 == 1 then Sh
    else if funct3 == 2 then Sw
    else Invalid
  }

  function DecodeStore(funct3: bv3, imm: bv32): Operation {
    var kind := StoreKind(funct3);
    var control := WithMemoryWidth(
      NO_CONTROL.(memWrite := true, aluSrcImm := true, aluOp := AluAdd), funct3).(memUnsigned := false);
    Operation(kind, Word(imm), if kind.Invalid? then NO_CONTROL else control)
  }

  function BranchOperation(funct3: bv3): Option<(InstructionKind, BranchCondition)> {
    if funct3 == 0 then Some((Beq, Equal))
    else if funct3 == 1 then Some((Bne, NotEqual))
    else if funct3 == 4 then Some((Blt, LessThan))
    else if funct3 == 5 then Some((Bge, GreaterOrEqual))
    else if funct3 == 6 then Some((Bltu, LessThanUnsigned))
    else if funct3 == 7 then Some((Bgeu, GreaterOrEqualUnsigned))
    else None
  }

  function DecodeBranch(funct3: bv3, imm: bv32): Operation {
    match BranchOperation(funct3)
    case Some((kind, condition)) =>
      Operation(kind, Word(imm), NO_CONTROL.(branch := true, aluOp := AluSub, branchCondition := condition))
    case None => Operation(Invalid, Word(imm), NO_CONTROL)
  }

  function DecodeLui(imm: bv32): Operation {
    Operation(Lui, Word(imm), NO_CONTROL.(regWrite := true, writebackSource := Immediate))
  }

  function DecodeAuipc(imm: bv32): Operation {
    Operation(Auipc, Word(imm),
      NO_CONTROL.(regWrite := true, aluSrcPc := true, aluSrcImm := true, aluOp := AluAdd, writebackSource := Alu))
  }

  function DecodeJal(imm: bv32): Operation {
    Operation(Jal, Word(imm),
      NO_CONTROL.(
        regWrite := true, jump := true, aluSrcPc := true, aluSrcImm := true, aluOp := AluAdd,
        writebackSource := PcPlus4))
  }

  function DecodeJalr(funct3: bv3, imm: bv32): Operation {
    if funct3 == 0 then
      Operation(Jalr, Word(imm),
        NO_CONTROL.(regWrite := true, jump := true, aluSrcImm := true, aluOp := AluAdd, writebackSource := PcPlus4))
    else Operation(Invalid, Word(imm), NO_CONTROL)
  }

  function DecodeSystem(funct3: bv3, imm: bv32): Operation {
    if funct3 == 0 && imm == 0 then Operation(Ecall, Word(imm), NO_CONTROL.(halt := true))
    else if funct3 == 0 && imm == 1 then Operation(Ebreak, Word(imm), NO_CONTROL.(halt := true))
    else Operation(Invalid, Word(imm), NO_CONTROL)
  }

  function FormatOf(opcode: bv7): InstructionFormat {
    if opcode == OPCODE_REG then RFormat
    else if opcode == OPCODE_IMM || opcode == OPCODE_LOAD || opcode == OPCODE_JALR || opcode == OPCODE_SYSTEM
    then IFormat
    else if opcode == OPCODE_STORE then SFormat
    else if opcode == OPCODE_BRANCH then BFormat
    else if opcode == OPCODE_LUI || opcode == OPCODE_AUIPC then UFormat
    else if opcode == OPCODE_JAL then JFormat
    else UnknownFormat
  }

  function DecodeOperation(raw: bv32): Operation {
    var opcode, funct3, funct7 := ExtractOpcode(raw), ExtractFunct3(raw), ExtractFunct7(raw);
    if opcode == OPCODE_REG then DecodeReg(funct3, funct7)
    else if opcode == OPCODE_IMM then DecodeImm(funct3, funct7, ImmediateI(raw))
    else if opcode == OPCODE_LOAD then DecodeLoad(funct3, ImmediateI(raw))
    else if opcode == OPCODE_STORE then DecodeStore(funct3, ImmediateS(raw))
    else if opcode == OPCODE_BRANCH then DecodeBranch(funct3, ImmediateB(raw))
    else if opcode == OPCODE_LUI then DecodeLui(ImmediateU(raw))
    else if opcode == OPCODE_AUIPC then DecodeAuipc(ImmediateU(raw))
    else if opcode == OPCODE_JAL then DecodeJal(ImmediateJ(raw))
    else if opcode == OPCODE_JALR then DecodeJalr(funct3, ImmediateI(raw))
    else if opcode == OPCODE_SYSTEM then DecodeSystem(funct3, ImmediateI(raw))
    else Operation(Invalid, ZERO, NO_CONTROL)
  }

  function DecodeInstruction(instruction: Word): DecodedInstruction {
    var raw := instruction.bits;
    var operation := DecodeOperation(raw);
    DecodedInstruction(
      operation.kind, FormatOf(ExtractOpcode(raw)), instruction,
      ExtractOpcode(raw), X(ExtractRd(raw)), X(ExtractRs1(raw)), X(ExtractRs2(raw)),
      ExtractFunct3(raw), ExtractFunct7(raw), operation.immediate, operation.control)
  }

  lemma AccessOfCode(funct3: bv3)
    ensures AccessWidthOf(LoadKind(funct3)) == WithMemoryWidth(NO_CONTROL, funct3).memoryWidth
    ensures LoadKind(funct3).Lbu? || LoadKind(funct3).Lhu? <==> funct3 == 4 || funct3 == 5
  {
  }

  /** Sets the width and the signedness of an access, from its function code: those of the load with that code. */
  method SetMemoryWidth(control: ControlSignals, funct3: bv3) returns (updated: ControlSignals)
    ensures updated == WithMemoryWidth(control, funct3)
    ensures updated.memoryWidth == AccessWidthOf(LoadKind(funct3))
    ensures updated.memUnsigned <==> LoadKind(funct3).Lbu? || LoadKind(funct3).Lhu?
  {
    hide LoadKind, AccessWidthOf;
    AccessOfCode(funct3);
    var width;
    if funct3 == 0 || funct3 == 4 {
      width := ByteAccess;
    } else if funct3 == 1 || funct3 == 5 {
      width := HalfWordAccess;
    } else if funct3 == 2 {
      width := WordAccess;
    } else {
      width := NoAccess;
    }
    updated := control.(memoryWidth := width, memUnsigned := funct3 == 4 || funct3 == 5);
  }

  // The cases of `Decode`: each finds the kind and the control signals of one opcode

  method FillReg(funct3: bv3, funct7: bv7) returns (kind: InstructionKind, control: ControlSignals)
    ensures Operation(kind, ZERO, control) == DecodeReg(funct3, funct7)
  {
    hide AluRegControl;
    kind, control := Invalid, NO_CONTROL;
    if funct3 == 0 && funct7 == 0x00 {
      kind, control := Add, AluRegControl(AluAdd);
    } else if funct3 == 0 && funct7 == 0x20 {
      kind, control := Sub, AluRegControl(AluSub);
    } else if funct3 == 1 && funct7 == 0x00 {
      kind, control := Sll, AluRegControl(AluSll);
    } else if funct3 == 2 && funct7 == 0x00 {
      kind, control := Slt, AluRegControl(AluSlt);
    } else if funct3 == 3 && funct7 == 0x00 {
      kind, control := Sltu, AluRegControl(AluSltu);
    } else if funct3 == 4 && funct7 == 0x00 {
      kind, control := Xor, AluRegControl(AluXor);
    } else if funct3 == 5 && funct7 == 0x00 {
      kind, control := Srl, AluRegControl(AluSrl);
    } else if funct3 == 5 && funct7 == 0x20 {
      kind, control := Sra, AluRegControl(AluSra);
    } else if funct3 == 6 && funct7 == 0x00 {
      kind, control := Or, AluRegControl(AluOr);
    } else if funct3 == 7 && funct7 == 0x00 {
      kind, control := And, AluRegControl(AluAnd);
    }
  }

  method FillImm(funct3: bv3, funct7: bv7, imm: bv32)
    returns (kind: InstructionKind, immediate: bv32, control: ControlSignals)
    ensures Operation(kind, Word(immediate), control) == DecodeImm(funct3, funct7, imm)
  {
    hide AluImmControl;
    kind, immediate, control := Invalid, imm, NO_CONTROL;
    if funct3 == 0 {
      kind, control := Addi, AluImmControl(AluAdd);
    } else if funct3 == 2 {
      kind, control := Slti, AluImmControl(AluSlt);
    } else if funct3 == 3 {
      kind, control := Sltiu, AluImmControl(AluSltu);
    } else if funct3 == 4 {
      kind, control := Xori, AluImmControl(AluXor);
    } else if funct3 == 6 {
      kind, control := Ori, AluImmControl(AluOr);
    } else if funct3 == 7 {
      kind, control := Andi, AluImmControl(AluAnd);
    } else if funct3 == 1 && funct7 == 0x00 {
      kind, control := Slli, AluImmControl(AluSll);
      immediate := immediate & 0x1F;
    } else if funct3 == 5 && funct7 == 0x00 {
      kind, control := Srli, AluImmControl(AluSrl);
      immediate := immediate & 0x1F;
    } else if funct3 == 5 && funct7 == 0x20 {
      kind, control := Srai, AluImmControl(AluSra);
      immediate := immediate & 0x1F;
    }
  }

  method FillLoad(funct3: bv3, imm: bv32) returns (kind: InstructionKind, control: ControlSignals)
    ensures Operation(kind, Word(imm), control) == DecodeLoad(funct3, imm)
  {
    hide WithMemoryWidth;
    kind, control := Invalid, NO_CONTROL;
    if funct3 == 0 {
      kind := Lb;
    } else if funct3 == 1 {
      kind := Lh;
    } else if funct3 == 2 {
      kind := Lw;
    } else if funct3 == 4 {
      kind := Lbu;
    } else if funct3 == 5 {
      kind := Lhu;
    }
    if kind != Invalid {
      control := NO_CONTROL.(
        regWrite := true, memRead := true, aluSrcImm := true, aluOp := AluAdd, writebackSource := Memory);
      control := SetMemoryWidth(control, funct3);
    }
  }

  method FillStore(funct3: bv3, imm: bv32) returns (kind: InstructionKind, control: ControlSignals)
    ensures Operation(kind, Word(imm), control) == DecodeStore(funct3, imm)
  {
    hide WithMemoryWidth;
    kind, control := Invalid, NO_CONTROL;
    if funct3 == 0 {
      kind := Sb;
    } else if funct3 == 1 {
      kind := Sh;
    } else if funct3 == 2 {
      kind := Sw;
    }
    if kind != Invalid {
      control := SetMemoryWidth(NO_CONTROL.(memWrite := true, aluSrcImm := true, aluOp := AluAdd), funct3);
      control := control.(memUnsigned := false);
    }
  }

  method FillBranch(funct3: bv3, imm: bv32) returns (kind: InstructionKind, control: ControlSignals)
    ensures Operation(kind, Word(imm), control) == DecodeBranch(funct3, imm)
  {
    kind, control := Invalid, NO_CONTROL;
    if funct3 == 0 {
      kind, control := Beq, NO_CONTROL.(branch := true, aluOp := AluSub, branchCondition := Equal);
    } else if funct3 == 1 {
      kind, control := Bne, NO_CONTROL.(branch := true, aluOp := AluSub, branchCondition := NotEqual);
    } else if funct3 == 4 {
      kind, control := Blt, NO_CONTROL.(branch := true, aluOp := AluSub, branchCondition := LessThan);
    } else if funct3 == 5 {
      kind, control := Bge, NO_CONTROL.(branch := true, aluOp := AluSub, branchCondition := GreaterOrEqual);
    } else if funct3 == 6 {
      kind, control := Bltu, NO_CONTROL.(branch := true, aluOp := AluSub, branchCondition := LessThanUnsigned);
    } else if funct3 == 7 {
      kind, control := Bgeu, NO_CONTROL.(branch := true, aluOp := AluSub, branchCondition := GreaterOrEqualUnsigned);
    }
  }

  /** Decodes a word the way the source does, starting from an invalid instruction and filling in what the codes say. */
  method Decode(instruction: Word) returns (decoded: DecodedInstruction)
    ensures decoded == DecodeInstruction(instruction)
  {
    hide ExtractOpcode, ExtractRd, ExtractFunct3, ExtractRs1, ExtractRs2, ExtractFunct7, ImmediateI, ImmediateS,
         ImmediateB, ImmediateU, ImmediateJ, DecodeReg, DecodeImm, DecodeLoad, DecodeStore, DecodeBranch;
    var raw := instruction.bits;
    var opcode, funct3, funct7 := ExtractOpcode(raw), ExtractFunct3(raw), ExtractFunct7(raw);
    var kind, format, immediate, control := Invalid, UnknownFormat, 0 as bv32, NO_CONTROL;
    if opcode == OPCODE_REG {
      format := RFormat;
      kind, control := FillReg(funct3, funct7);
    } else if opcode == OPCODE_IMM {
      format, immediate := IFormat, ImmediateI(raw);
      kind, immediate, control := FillImm(funct3, funct7, immediate);
    } else if opcode == OPCODE_LOAD {
      format, immediate := IFormat, ImmediateI(raw);
      kind, control := FillLoad(funct3, immediate);
    } else if opcode == OPCODE_STORE {
      format, immediate := SFormat, ImmediateS(raw);
      kind, control := FillStore(funct3, immediate);
    } else if opcode == OPCODE_BRANCH {
      format, immediate := BFormat, ImmediateB(raw);
      kind, control := FillBranch(funct3, immediate);
    } else if opcode == OPCODE_LUI {
      format, immediate, kind := UFormat, ImmediateU(raw), Lui;
      control := control.(regWrite := true, writebackSource := Immediate);
    } else if opcode == OPCODE_AUIPC {
      format, immediate, kind := UFormat, ImmediateU(raw), Auipc;
      control := control.(
        regWrite := true, aluSrcPc := true, aluSrcImm := true, aluOp := AluAdd, writebackSource := Alu);
    } else if opcode == OPCODE_JAL {
      format, immediate, kind := JFormat, ImmediateJ(raw), Jal;
      control := control.(
        regWrite := true, jump := true, aluSrcPc := true, aluSrcImm := true, aluOp := AluAdd,
        writebackSource := PcPlus4);
    } else if opcode == OPCODE_JALR {
      format, immediate := IFormat, ImmediateI(raw);
      if funct3 == 0 {
        kind := Jalr;
        control := control.(
          regWrite := true, jump := true, aluSrcImm := true, aluOp := AluAdd, writebackSource := PcPlus4);
      }
    } else if opcode == OPCODE_SYSTEM {
      format, immediate := IFormat, ImmediateI(raw);
      if funct3 == 0 && immediate == 0 {
        kind, control := Ecall, control.(halt := true);
      } else if funct3 == 0 && immediate == 1 {
        kind, control := Ebreak, control.(halt := true);
      }
    }
    decoded := DecodedInstruction(
      kind, format, instruction, opcode, X(ExtractRd(raw)), X(ExtractRs1(raw)), X(ExtractRs2(raw)), funct3, funct7,
      Word(immediate), control);
  }

  datatype InstructionClass =
    | NoClass | RegAlu | ImmAlu | Load | Store | Branch | LoadUpper | AddUpperPc | Jump | JumpRegister | System

  function ClassOf(kind: InstructionKind): InstructionClass {
    match kind
    case Invalid => NoClass
    case Add | Sub | Sll | Slt | Sltu | Xor | Srl | Sra | Or | And => RegAlu
    case Addi | Slti | Sltiu | Xori | Ori | Andi | Slli | Srli | Srai => ImmAlu
    case Lb | Lh | Lw | Lbu | Lhu => Load
    case Sb | Sh | Sw => Store
    case Beq | Bne | Blt | Bge | Bltu | Bgeu => Branch
    case Lui => LoadUpper
    case Auipc => AddUpperPc
    case Jal => Jump
    case Jalr => JumpRegister
    case Ecall | Ebreak => System
  }

  /** The operation of the arithmetic kinds. */
  function AluOpOf(kind: InstructionKind): AluOp {
    if kind.Add? || kind.Addi? then AluAdd
    else if kind.Sub? then AluSub
    else if kind.Sll? || kind.Slli? then AluSll
    else if kind.Slt? || kind.Slti? then AluSlt
    else if kind.Sltu? || kind.Sltiu? then AluSltu
    else if kind.Xor? || kind.Xori? then AluXor
    else if kind.Srl? || kind.Srli? then AluSrl
    else if kind.Sra? || kind.Srai? then AluSra
    else if kind.Or? || kind.Ori? then AluOr
    else if kind.And? || kind.Andi? then AluAnd
    else AluNone
  }

  /** The access width of the loads and stores. */
  function AccessWidthOf(kind: InstructionKind): AccessWidth {
    if kind.Lb? || kind.Lbu? || kind.Sb? then ByteAccess
    else if kind.Lh? || kind.Lhu? || kind.Sh? then HalfWordAccess
    else if kind.Lw? || kind.Sw? then WordAccess
    else NoAccess
  }

  /** The condition of the branches. */
  function ConditionOf(kind: InstructionKind): BranchCondition {
    if kind.Beq? then Equal
    else if kind.Bne? then NotEqual
    else if kind.Blt? then LessThan
    else if kind.Bge? then GreaterOrEqual
    else if kind.Bltu? then LessThanUnsigned
    else if kind.Bgeu? then GreaterOrEqualUnsigned
    else Never
  }

  function ControlOf(kind: InstructionKind): ControlSignals {
    ControlOfClass(
      ClassOf(kind), AluOpOf(kind), ConditionOf(kind), AccessWidthOf(kind), kind.Lbu? || kind.Lhu?)
  }

  /** The truth table of the control signals, by instruction class. */
  function ControlOfClass(
    group: InstructionClass, op: AluOp, condition: BranchCondition, width: AccessWidth, unsigned: bool)
    : ControlSignals
  {
    ControlSignals(
      regWrite := !group.NoClass? && !group.Store? && !group.Branch? && !group.System?,
      memRead := group.Load?,
      memWrite := group.Store?,
      branch := group.Branch?,
      jump := group.Jump? || group.JumpRegister?,
      aluSrcPc := group.AddUpperPc? || group.Jump?,
      aluSrcImm := !group.NoClass? && !group.RegAlu? && !group.Branch? && !group.LoadUpper? && !group.System?,
      memUnsigned := group.Load? && unsigned,
      halt := group.System?,
      aluOp := if group.RegAlu? || group.ImmAlu? then op
               else if group.Branch? then AluSub
               else if group.NoClass? || group.LoadUpper? || group.System? then AluNone
               else AluAdd,
      writebackSource := if group.RegAlu? || group.ImmAlu? || group.AddUpperPc? then Alu
                         else if group.Load? then Memory
                         else if group.Jump? || group.JumpRegister? then PcPlus4
                         else if group.LoadUpper? then Immediate
                         else NoSource,
      branchCondition := if group.Branch? then condition else Never,
      memoryWidth := if group.Load? || group.Store? then width else NoAccess)
  }

  predicate HasControlOfItsKind(operation: Operation) {
    operation.control == ControlOf(operation.kind)
  }

  lemma RegDecoderAgrees(funct3: bv3, funct7: bv7)
    ensures HasControlOfItsKind(DecodeReg(funct3, funct7))
  {
    match RegOperation(funct3, funct7)
    case Some((kind, op)) =>
      assert ClassOf(kind) == RegAlu && AluOpOf(kind) == op;
      hide ClassOf, AluOpOf, ConditionOf, AccessWidthOf, RegOperation;
    case None =>
  }

  lemma ImmDecoderAgrees(funct3: bv3, funct7: bv7, imm: bv32)
    ensures HasControlOfItsKind(DecodeImm(funct3, funct7, imm))
  {
    match ImmOperation(funct3, funct7)
    case Some((kind, op)) =>
      assert ClassOf(kind) == ImmAlu && AluOpOf(kind) == op;
      hide ClassOf, AluOpOf, ConditionOf, AccessWidthOf, ImmOperation;
    case None =>
  }

  lemma LoadDecoderAgrees(funct3: bv3, imm: bv32)
    ensures HasControlOfItsKind(DecodeLoad(funct3, imm))
  {
  }

  lemma StoreDecoderAgrees(funct3: bv3, imm: bv32)
    ensures HasControlOfItsKind(DecodeStore(funct3, imm))
  {
  }

  lemma BranchDecoderAgrees(funct3: bv3, imm: bv32)
    ensures HasControlOfItsKind(DecodeBranch(funct3, imm))
  {
    match BranchOperation(funct3)
    case Some((kind, condition)) =>
      assert ClassOf(kind) == Branch && ConditionOf(kind) == condition;
      hide ClassOf, AluOpOf, ConditionOf, AccessWidthOf, BranchOperation;
    case None =>
  }

  lemma JumpDecodersAgree(funct3: bv3, imm: bv32)
    ensures HasControlOfItsKind(DecodeJal(imm)) && HasControlOfItsKind(DecodeJalr(funct3, imm))
  {
  }

  lemma UpperDecodersAgree(imm: bv32)
    ensures HasControlOfItsKind(DecodeLui(imm)) && HasControlOfItsKind(DecodeAuipc(imm))
  {
  }

  lemma SystemDecoderAgrees(funct3: bv3, imm: bv32)
    ensures HasControlOfItsKind(DecodeSystem(funct3, imm))
    ensures HasControlOfItsKind(Operation(Invalid, ZERO, NO_CONTROL))
  {
  }

  lemma OperationHasControlOfItsKind(raw: bv32)
    ensures HasControlOfItsKind(DecodeOperation(raw))
  {
    hide HasControlOfItsKind, DecodeReg, DecodeImm, DecodeLoad, DecodeStore, DecodeBranch, DecodeJal, DecodeJalr,
         DecodeSystem, DecodeLui, DecodeAuipc, ImmediateI, ImmediateS, ImmediateB, ImmediateU, ImmediateJ,
         ExtractOpcode, ExtractFunct3, ExtractFunct7;
    var funct3, funct7 := ExtractFunct3(raw), ExtractFunct7(raw);
    RegDecoderAgrees(funct3, funct7);
    ImmDecoderAgrees(funct3, funct7, ImmediateI(raw));
    LoadDecoderAgrees(funct3, ImmediateI(raw));
    StoreDecoderAgrees(funct3, ImmediateS(raw));
    BranchDecoderAgrees(funct3, ImmediateB(raw));
    JumpDecodersAgree(funct3, ImmediateJ(raw));
    JumpDecodersAgree(funct3, ImmediateI(raw));
    UpperDecodersAgree(ImmediateU(raw));
    SystemDecoderAgrees(funct3, ImmediateI(raw));
  }

  /** Whatever the word, its control signals are exactly those its kind calls for; an invalid word controls nothing. */
  lemma DecodedControl(instruction: Word)
    ensures var d := DecodeInstruction(instruction); d.control == ControlOf(d.kind)
  {
    hide ControlOf, DecodeOperation;
    OperationHasControlOfItsKind(instruction.bits);
  }
}
