/** The four pipeline latches with their control signals (include/pipeline_registers.hpp). */
module PipelineRegisters {
  import opened Words

  datatype InstructionFormat = UnknownFormat | RFormat | IFormat | SFormat | BFormat | UFormat | JFormat

  datatype AluOp = AluNone | AluAdd | AluSub | AluAnd | AluOr | AluXor | AluSll | AluSrl | AluSra | AluSlt | AluSltu

  datatype WritebackSource = NoSource | Alu | Memory | PcPlus4 | Immediate

  datatype BranchCondition =
    | Never | Equal | NotEqual | LessThan | GreaterOrEqual | LessThanUnsigned | GreaterOrEqualUnsigned

  datatype AccessWidth = NoAccess | ByteAccess | HalfWordAccess | WordAccess

  datatype ControlSignals = ControlSignals(
    regWrite: bool,
    memRead: bool,
    memWrite: bool,
    branch: bool,
    jump: bool,
    aluSrcPc: bool,
    aluSrcImm: bool,
    memUnsigned: bool,
    halt: bool,
    aluOp: AluOp,
    writebackSource: WritebackSource,
    branchCondition: BranchCondition,
    memoryWidth: AccessWidth)

  const NO_CONTROL := ControlSignals(
    false, false, false, false, false, false, false, false, false, AluNone, NoSource, Never, NoAccess)

  datatype IfId = IfId(valid: bool, pc: Word, instruction: Word, predictedTaken: bool, predictedNextPc: Word)

  const EMPTY_IF_ID := IfId(false, ZERO, ZERO, false, ZERO)

  datatype IdEx = IdEx(
    valid: bool,
    pc: Word,
    instruction: Word,
    predictedTaken: bool,
    predictedNextPc: Word,
    format: InstructionFormat,
    rd: RegIndex,
    rs1: RegIndex,
    rs2: RegIndex,
    funct3: bv3,
    funct7: bv7,
    immediate: Word,
    rs1Value: Word,
    rs2Value: Word,
    control: ControlSignals)

  const EMPTY_ID_EX := IdEx(
    false, ZERO, ZERO, false, ZERO, UnknownFormat, X0, X0, X0, 0, 0, ZERO, ZERO, ZERO, NO_CONTROL)

  datatype ExMem = ExMem(
    valid: bool,
    pc: Word,
    instruction: Word,
    rd: RegIndex,
    aluResult: Word,
    storeValue: Word,
    pcPlus4: Word,
    immediate: Word,
    branchTarget: Word,
    branchTaken: bool,
    control: ControlSignals)

  const EMPTY_EX_MEM := ExMem(false, ZERO, ZERO, X0, ZERO, ZERO, ZERO, ZERO, ZERO, false, NO_CONTROL)

  datatype MemWb = MemWb(
    valid: bool,
    pc: Word,
    instruction: Word,
    rd: RegIndex,
    aluResult: Word,
    memoryData: Word,
    pcPlus4: Word,
    immediate: Word,
    control: ControlSignals)

  const EMPTY_MEM_WB := MemWb(false, ZERO, ZERO, X0, ZERO, ZERO, ZERO, ZERO, NO_CONTROL)

  /** The contents of the four latches between two cycles. */
  datatype Latches = Latches(ifId: IfId, idEx: IdEx, exMem: ExMem, memWb: MemWb)

  const EMPTY_LATCHES := Latches(EMPTY_IF_ID, EMPTY_ID_EX, EMPTY_EX_MEM, EMPTY_MEM_WB)

  predicate ControlsNothing(control: ControlSignals) {
    && !control.regWrite && !control.memRead && !control.memWrite && !control.branch && !control.jump && !control.halt
    && !control.aluSrcPc && !control.aluSrcImm && !control.memUnsigned && control.aluOp.AluNone?
    && control.writebackSource.NoSource? && control.branchCondition.Never? && control.memoryWidth.NoAccess?
  }

  /** An empty latch is not valid, controls nothing and holds zeros. */
  lemma EmptyLatchesHoldNothing(l: Latches)
    requires l == EMPTY_LATCHES
    ensures !l.ifId.valid && !l.idEx.valid && !l.exMem.valid && !l.memWb.valid
    ensures ControlsNothing(l.idEx.control) && ControlsNothing(l.exMem.control) && ControlsNothing(l.memWb.control)
    ensures var f := l.ifId; f.pc.bits == f.instruction.bits == f.predictedNextPc.bits == 0 && !f.predictedTaken
    ensures var d := l.idEx;
            && d.pc.bits == d.instruction.bits == d.predictedNextPc.bits == d.immediate.bits == d.rs1Value.bits
                 == d.rs2Value.bits == 0
            && !d.predictedTaken && d.format.UnknownFormat? && d.funct3 == 0 && d.funct7 == 0
            && d.rd.number == d.rs1.number == d.rs2.number == 0
    ensures var e := l.exMem;
            && e.pc.bits == e.instruction.bits == e.aluResult.bits == e.storeValue.bits == e.pcPlus4.bits
                 == e.immediate.bits == e.branchTarget.bits == 0
            && !e.branchTaken && e.rd.number == 0
    ensures var w := l.memWb;
            && w.pc.bits == w.instruction.bits == w.aluResult.bits == w.memoryData.bits == w.pcPlus4.bits
                 == w.immediate.bits == 0
            && w.rd.number == 0
  {
  }

  /** Current and next latches; a cycle reads the current ones, fills the next ones and commits. */
  class PipelineRegisters {
    var ifId: IfId
    var idEx: IdEx
    var exMem: ExMem
    var memWb: MemWb
    var nextIfId: IfId
    var nextIdEx: IdEx
    var nextExMem: ExMem
    var nextMemWb: MemWb

    constructor ()
      ensures Current() == EMPTY_LATCHES && Next() == EMPTY_LATCHES
    {
      ifId, idEx, exMem, memWb := EMPTY_IF_ID, EMPTY_ID_EX, EMPTY_EX_MEM, EMPTY_MEM_WB;
      nextIfId, nextIdEx, nextExMem, nextMemWb := EMPTY_IF_ID, EMPTY_ID_EX, EMPTY_EX_MEM, EMPTY_MEM_WB;
    }

    function Current(): Latches
      reads this
    {
      Latches(ifId, idEx, exMem, memWb)
    }

    function Next(): Latches
      reads this
    {
      Latches(nextIfId, nextIdEx, nextExMem, nextMemWb)
    }

    method Commit()
      modifies this
      ensures Current() == old(Next()) && Next() == old(Next())
    {
      ifId := nextIfId;
      idEx := nextIdEx;
      exMem := nextExMem;
      memWb := nextMemWb;
    }

    method ClearNext()
      modifies this
      ensures Current() == old(Current()) && Next() == EMPTY_LATCHES
    {
      nextIfId := EMPTY_IF_ID;
      nextIdEx := EMPTY_ID_EX;
      nextExMem := EMPTY_EX_MEM;
      nextMemWb := EMPTY_MEM_WB;
    }

    method ClearAll()
      modifies this
      ensures Current() == EMPTY_LATCHES && Next() == EMPTY_LATCHES
    {
      ifId := EMPTY_IF_ID;
      idEx := EMPTY_ID_EX;
      exMem := EMPTY_EX_MEM;
      memWb := EMPTY_MEM_WB;
      ClearNext();
    }
  }
}
