/**
 * What each of the five stages does in one cycle, as functions on the CPU state and the latches (src/stages.cpp).
 * `PipelineMachine` holds the methods that update the state in place; each is proved equal to its function here.
 */
module Stages {
  import opened Words
  import opened Memory
  import opened BranchPredictor
  import opened PipelineRegisters
  import opened Decoder
  import opened Instruction
  import opened CpuState
  import opened Forwarding
  import opened Hazard

  /** The CPU and its latches between two cycles. */
  datatype Machine = Machine(cpu: CpuState, latches: Latches)

  /** A cycle ticks, or the bounds check throws and leaves the CPU as WB left it, with no latch committed. */
  datatype CycleResult = Ticked(machine: Machine) | Thrown(machine: Machine)

  /** Any way of predicting a branch from the whole CPU state and its address. */
  type Prediction = (CpuState, Word) -> bool

  /** The prediction the simulator makes: the configured mode over its own table. */
  const CONFIGURED: Prediction := (cpu: CpuState, branchPc: Word) => Predict(cpu.counters, cpu.mode, branchPc)

  predicate HaltInFlight(latches: Latches) {
    || (latches.idEx.valid && latches.idEx.control.halt)
    || (latches.exMem.valid && latches.exMem.control.halt)
    || (latches.memWb.valid && latches.memWb.control.halt)
  }

  function OffsetBinary(x: bv32): bv32 {
    x ^ 0x8000_0000
  }

  /** Signed comparison, by moving both operands from two's complement to offset binary. */
  predicate LessSigned(lhs: Word, rhs: Word) {
    Less(OffsetBinary(lhs.bits), OffsetBinary(rhs.bits))
  }

  /** The arithmetic right shift of a signed operand: a negative one is shifted as its complement. */
  function ShiftRightSigned(lhs: bv32, amount: bv5): bv32 {
    if lhs & 0x8000_0000 == 0 then ShiftRight(lhs, amount) else !ShiftRight(!lhs, amount)
  }

  function ShiftOperand(rhs: Word): bv5 {
    (rhs.bits & 0x1F) as bv5
  }

  function ExecuteAlu(op: AluOp, lhs: Word, rhs: Word): Word {
    match op
    case AluAdd => Plus(lhs, rhs)
    case AluSub => Minus(lhs, rhs)
    case AluAnd => BitAnd(lhs, rhs)
    case AluOr => BitOr(lhs, rhs)
    case AluXor => BitXor(lhs, rhs)
    case AluSll => Word(ShiftLeft(lhs.bits, ShiftOperand(rhs)))
    case AluSrl => Word(ShiftRight(lhs.bits, ShiftOperand(rhs)))
    case AluSra => Word(ShiftRightSigned(lhs.bits, ShiftOperand(rhs)))
    case AluSlt => if LessSigned(lhs, rhs) then Word(1) else ZERO
    case AluSltu => if Below(lhs, rhs) then Word(1) else ZERO
    case AluNone => ZERO
  }

  predicate EvaluateBranch(condition: BranchCondition, lhs: Word, rhs: Word) {
    match condition
    case Equal => lhs == rhs
    case NotEqual => lhs != rhs
    case LessThan => LessSigned(lhs, rhs)
    case GreaterOrEqual => !LessSigned(lhs, rhs)
    case LessThanUnsigned => Below(lhs, rhs)
    case GreaterOrEqualUnsigned => !Below(lhs, rhs)
    case Never => false
  }

  function WidthInBytes(width: AccessWidth): nat {
    match width
    case NoAccess => 0
    case ByteAccess => 1
    case HalfWordAccess => 2
    case WordAccess => 4
  }

  function ReadMemory(memory: seq<Byte>, address: Word, control: ControlSignals): Word
    requires InBounds(|memory|, address, WidthInBytes(control.memoryWidth))
  {
    match control.memoryWidth
    case ByteAccess =>
      var value := WidenByte(ReadU8(memory, address));
      Word(if control.memUnsigned then value else SignExtend(value, 8))
    case HalfWordAccess =>
      var value := WidenHalfWord(ReadU16(memory, address));
      Word(if control.memUnsigned then value else SignExtend(value, 16))
    case WordAccess => Word(ReadU32(memory, address))
    case NoAccess => ZERO
  }

  function WriteMemory(memory: seq<Byte>, address: Word, value: Word, control: ControlSignals)
    : (written: seq<Byte>)
    requires InBounds(|memory|, address, WidthInBytes(control.memoryWidth))
    ensures |written| == |memory|
  {
    match control.memoryWidth
    case ByteAccess => WriteU8(memory, address, LowByte(value.bits))
    case HalfWordAccess => WriteU16(memory, address, LowHalfWord(value.bits))
    case WordAccess => WriteU32(memory, address, value.bits)
    case NoAccess => memory
  }

  // WB

  function RegsAfterWriteback(regs: RegFile, memWb: MemWb): RegFile {
    if memWb.valid && memWb.control.regWrite then WriteReg(regs, memWb.rd, WritebackValue(memWb)) else regs
  }

  function WritebackStep(cpu: CpuState, memWb: MemWb): CpuState {
    if !memWb.valid then cpu
    else
      cpu.(regs := RegsAfterWriteback(cpu.regs, memWb),
           halted := cpu.halted || memWb.control.halt,
           stats := cpu.stats.(instructionCount := cpu.stats.instructionCount + 1))
  }

  // MEM

  predicate AccessThrows(size: nat, exMem: ExMem) {
    && exMem.valid
    && (exMem.control.memRead || exMem.control.memWrite)
    && !InBounds(size, exMem.aluResult, WidthInBytes(exMem.control.memoryWidth))
  }

  function MemWbFrom(memory: seq<Byte>, exMem: ExMem): MemWb
    requires !AccessThrows(|memory|, exMem)
  {
    if !exMem.valid then EMPTY_MEM_WB
    else
      MemWb(
        true, exMem.pc, exMem.instruction, exMem.rd, exMem.aluResult,
        if exMem.control.memRead then ReadMemory(memory, exMem.aluResult, exMem.control) else ZERO,
        exMem.pcPlus4, exMem.immediate, exMem.control)
  }

  function MemoryAfterStore(memory: seq<Byte>, exMem: ExMem): (written: seq<Byte>)
    requires !AccessThrows(|memory|, exMem)
    ensures |written| == |memory|
  {
    if exMem.valid && exMem.control.memWrite then
      WriteMemory(memory, exMem.aluResult, exMem.storeValue, exMem.control)
    else memory
  }

  function WritesAfterStore(writes: seq<MemoryWrite>, exMem: ExMem): seq<MemoryWrite> {
    if exMem.valid && exMem.control.memWrite && !exMem.control.memoryWidth.NoAccess? then
      writes + [MemoryWrite(exMem.aluResult, WidthInBytes(exMem.control.memoryWidth))]
    else writes
  }

  function MemoryStep(cpu: CpuState, exMem: ExMem): CpuState
    requires !AccessThrows(|cpu.memory|, exMem)
  {
    cpu.(memory := MemoryAfterStore(cpu.memory, exMem), writes := WritesAfterStore(cpu.writes, exMem))
  }

  // EX

  /** Where control really goes after an instruction that may transfer it. */
  datatype Resolution = NoTransfer | Transfer(taken: bool, target: Word)

  function AluInputs(idEx: IdEx, rs1Value: Word, rs2Value: Word): (Word, Word) {
    (if idEx.control.aluSrcPc then idEx.pc else rs1Value,
     if idEx.control.aluSrcImm then idEx.immediate else rs2Value)
  }

  function AluResult(idEx: IdEx, rs1Value: Word, rs2Value: Word): Word {
    var inputs := AluInputs(idEx, rs1Value, rs2Value);
    ExecuteAlu(idEx.control.aluOp, inputs.0, inputs.1)
  }

  function ClearLowBit(target: Word): Word {
    Word(target.bits & !1)
  }

  function Resolve(idEx: IdEx, rs1Value: Word, rs2Value: Word): Resolution {
    if idEx.control.branch then
      var taken := EvaluateBranch(idEx.control.branchCondition, rs1Value, rs2Value);
      Transfer(taken, if taken then Plus(idEx.pc, idEx.immediate) else PlusFour(idEx.pc))
    else if idEx.control.jump then
      var result := AluResult(idEx, rs1Value, rs2Value);
      Transfer(true, if idEx.control.aluSrcPc then result else ClearLowBit(result))
    else NoTransfer
  }

  function ExMemFrom(idEx: IdEx, rs1Value: Word, rs2Value: Word): ExMem {
    if !idEx.valid then EMPTY_EX_MEM
    else
      var resolution := Resolve(idEx, rs1Value, rs2Value);
      ExMem(
        true, idEx.pc, idEx.instruction, idEx.rd, AluResult(idEx, rs1Value, rs2Value), rs2Value,
        PlusFour(idEx.pc), idEx.immediate,
        if resolution.Transfer? then resolution.target else ZERO,
        resolution.Transfer? && resolution.taken,
        idEx.control)
  }

  predicate Redirects(idEx: IdEx, resolution: Resolution) {
    idEx.valid && resolution.Transfer? && idEx.predictedNextPc != resolution.target
  }

  function StatsAfterBranch(stats: ExecutionStats, mispredicted: bool): ExecutionStats {
    stats.(branchPredictions := stats.branchPredictions + 1,
           branchMispredictions := stats.branchMispredictions + if mispredicted then 1 else 0)
  }

  /** EX trains the predictor with every branch and redirects fetch when the prediction was wrong. */
  function ExecuteStep(cpu: CpuState, idEx: IdEx, resolution: Resolution): CpuState {
    var redirect := Redirects(idEx, resolution);
    var trained :=
      if idEx.valid && idEx.control.branch && resolution.Transfer? then
        cpu.(stats := StatsAfterBranch(cpu.stats, redirect),
             counters := Trained(cpu.counters, cpu.mode, idEx.pc, resolution.taken))
      else cpu;
    if redirect then trained.(pc := resolution.target) else trained
  }

  // ID

  function IdExFrom(ifId: IfId, decoded: DecodedInstruction, regs: RegFile): IdEx {
    IdEx(
      true, ifId.pc, ifId.instruction, ifId.predictedTaken, ifId.predictedNextPc,
      decoded.format, decoded.rd, decoded.rs1, decoded.rs2, decoded.funct3, decoded.funct7, decoded.immediate,
      ReadReg(regs, decoded.rs1), ReadReg(regs, decoded.rs2), decoded.control)
  }

  /** ID passes a bubble on a flush, a stall, an empty latch or a word that is no instruction. */
  function DecodeStep(ifId: IfId, regs: RegFile, flush: bool, stall: bool): IdEx {
    if flush || stall || !ifId.valid then EMPTY_ID_EX
    else
      var decoded := DecodeInstruction(ifId.instruction);
      if decoded.IsValid() then IdExFrom(ifId, decoded, regs) else EMPTY_ID_EX
  }

  // IF

  function FetchedAt(cpu: CpuState, predict: Prediction): IfId {
    if !InBounds(|cpu.memory|, cpu.pc, 4) then EMPTY_IF_ID
    else
      var instruction := Word(ReadU32(cpu.memory, cpu.pc));
      var decoded := DecodeInstruction(instruction);
      var taken := decoded.IsValid() && decoded.control.branch && predict(cpu, cpu.pc);
      IfId(true, cpu.pc, instruction, taken, if taken then Plus(cpu.pc, decoded.immediate) else PlusFour(cpu.pc))
  }

  function FetchStep(cpu: CpuState, fetched: IfId): CpuState {
    if fetched.valid then cpu.(pc := fetched.predictedNextPc) else cpu
  }

  // The cycle

  function Stalled(cpu: CpuState, stall: bool): CpuState {
    if stall then cpu.(stats := cpu.stats.(stallCycles := cpu.stats.stallCycles + 1)) else cpu
  }

  function Tick(cpu: CpuState): CpuState {
    cpu.(stats := cpu.stats.(clockCycles := cpu.stats.clockCycles + 1))
  }

  /** The back half of a cycle, WB to EX, and the decision to flush or stall. */
  datatype BackHalf = BackHalf(cpu: CpuState, memWb: MemWb, exMem: ExMem, flush: bool, stall: bool)

  function RunBackHalf(cpu: CpuState, latches: Latches): BackHalf
    requires !AccessThrows(|cpu.memory|, latches.exMem)
  {
    var written := WritebackStep(cpu, latches.memWb);
    var accessed := MemoryStep(written, latches.exMem);
    var operands := Forwarded(latches.idEx, latches.exMem, latches.memWb);
    var resolution := Resolve(latches.idEx, operands.rs1Value, operands.rs2Value);
    var flush := Redirects(latches.idEx, resolution);
    var stall := !flush && IsLoadUse(latches.ifId, latches.idEx);
    BackHalf(
      Stalled(ExecuteStep(accessed, latches.idEx, resolution), stall),
      MemWbFrom(written.memory, latches.exMem),
      ExMemFrom(latches.idEx, operands.rs1Value, operands.rs2Value),
      flush, stall)
  }

  /** The front half: ID, then IF unless a halt or a stall holds it. */
  function RunFrontHalf(predict: Prediction, back: BackHalf, latches: Latches): Machine {
    var idEx := DecodeStep(latches.ifId, back.cpu.regs, back.flush, back.stall);
    if (idEx.valid && idEx.control.halt) || HaltInFlight(latches) then
      Machine(Tick(back.cpu), Latches(EMPTY_IF_ID, idEx, back.exMem, back.memWb))
    else if back.stall then
      Machine(Tick(back.cpu), Latches(latches.ifId, idEx, back.exMem, back.memWb))
    else
      var fetched := FetchedAt(back.cpu, predict);
      Machine(Tick(FetchStep(back.cpu, fetched)), Latches(fetched, idEx, back.exMem, back.memWb))
  }

  function Cycle(predict: Prediction, m: Machine): CycleResult {
    if AccessThrows(|m.cpu.memory|, m.latches.exMem) then
      Thrown(Machine(WritebackStep(m.cpu, m.latches.memWb), m.latches))
    else Ticked(RunFrontHalf(predict, RunBackHalf(m.cpu, m.latches), m.latches))
  }

  /** The machine after at most `n` cycles; the driver stops when the CPU halts or a cycle throws. */
  function Run(predict: Prediction, m: Machine, n: nat): CycleResult {
    if n == 0 then Ticked(m)
    else
      var before := Run(predict, m, n - 1);
      if before.Thrown? || before.machine.cpu.halted then before else Cycle(predict, before.machine)
  }
}
