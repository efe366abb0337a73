/** Operand use per instruction and the load-use interlock (src/hazard_unit.cpp). */
module Hazard {
  import opened Words
  import opened PipelineRegisters
  import opened Instruction

  datatype SourceRegisters = SourceRegisters(usesRs1: bool, usesRs2: bool, rs1: RegIndex, rs2: RegIndex)

  predicate ReadsRs1(kind: InstructionKind) {
    match ClassOf(kind)
    case RegAlu | Store | Branch | ImmAlu | Load | JumpRegister => true
    case _ => false
  }

  predicate ReadsRs2(kind: InstructionKind) {
    match ClassOf(kind)
    case RegAlu | Store | Branch => true
    case _ => false
  }

  /** Reading x0 is not a use: no instruction can change it. */
  function SourcesOf(instruction: DecodedInstruction): SourceRegisters {
    SourceRegisters(
      ReadsRs1(instruction.kind) && instruction.rs1 != X0,
      ReadsRs2(instruction.kind) && instruction.rs2 != X0,
      instruction.rs1,
      instruction.rs2)
  }

  predicate DependsOn(sources: SourceRegisters, rd: RegIndex) {
    || (sources.usesRs1 && sources.rs1 == rd)
    || (sources.usesRs2 && sources.rs2 == rd)
  }

  predicate IsLoadUse(ifId: IfId, idEx: IdEx) {
    && ifId.valid
    && DecodeInstruction(ifId.instruction).IsValid()
    && idEx.valid && idEx.control.regWrite && idEx.rd != X0
    && DependsOn(SourcesOf(DecodeInstruction(ifId.instruction)), idEx.rd)
    && idEx.control.memRead
  }

  method GetSourceRegisters(instruction: DecodedInstruction) returns (sources: SourceRegisters)
    ensures sources == SourcesOf(instruction)
  {
    var usesRs1, usesRs2 := false, false;
    match instruction.kind {
      case Add | Sub | Sll | Slt | Sltu | Xor | Srl | Sra | Or | And | Sb | Sh | Sw
         | Beq | Bne | Blt | Bge | Bltu | Bgeu =>
        usesRs1 := true;
        usesRs2 := true;
      case Addi | Slti | Sltiu | Xori | Ori | Andi | Slli | Srli | Srai | Lb | Lh | Lw | Lbu | Lhu | Jalr =>
        usesRs1 := true;
      case Lui | Auipc | Jal | Ecall | Ebreak | Invalid =>
    }
    assert usesRs1 == ReadsRs1(instruction.kind) && usesRs2 == ReadsRs2(instruction.kind);
    hide ReadsRs1, ReadsRs2;
    if instruction.rs1 == X0 {
      usesRs1 := false;
    }
    if instruction.rs2 == X0 {
      usesRs2 := false;
    }
    sources := SourceRegisters(usesRs1, usesRs2, instruction.rs1, instruction.rs2);
  }

  method DetectRawHazard(ifId: IfId, idEx: IdEx) returns (stall: bool)
    ensures stall == IsLoadUse(ifId, idEx)
  {
    if !ifId.valid {
      return false;
    }
    var decoded := Decode(ifId.instruction);
    if !decoded.IsValid() {
      return false;
    }
    var sources := GetSourceRegisters(decoded);
    hide DecodeInstruction, SourcesOf;
    if idEx.valid && idEx.control.regWrite && idEx.rd != X0 && DependsOn(sources, idEx.rd) {
      return idEx.control.memRead;
    }
    return false;
  }
}
