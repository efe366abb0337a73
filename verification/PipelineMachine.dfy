/**
 * The simulator's own form: stage methods that update the CPU, the predictor and the next latches in place, the cycle
 * that runs them in order and the driver loop (src/stages.cpp, main.cpp). Each is proved equal to its function in
 * `Stages`, so every theorem about those functions is one about these methods.
 */
module PipelineMachine {
  import opened Words
  import opened Memory
  import opened BranchPredictor
  import R = PipelineRegisters
  import opened PipelineRegisters
  import opened Decoder
  import opened Instruction
  import C = Cpu
  import opened Forwarding
  import opened Hazard
  import opened Stages

  /** The flags by which the stages of one cycle steer the later ones. */
  class StageControl {
    var flushIdEx: bool
    var stallFetchDecode: bool
    var stopFetch: bool

    constructor ()
      ensures !flushIdEx && !stallFetchDecode && !stopFetch
    {
      flushIdEx, stallFetchDecode, stopFetch := false, false, false;
    }
  }

  method StageWB(cpu: C.Cpu, pipeline: R.PipelineRegisters)
    requires cpu.Valid()
    modifies cpu, cpu.regs
    ensures cpu.Valid() && cpu.State() == WritebackStep(old(cpu.State()), pipeline.memWb)
  {
    hide WritebackValue;
    var memWb := pipeline.memWb;
    if !memWb.valid {
      return;
    }
    if memWb.control.regWrite {
      cpu.WriteRegister(memWb.rd, WritebackValue(memWb));
    }
    if memWb.control.halt {
      cpu.halted := true;
    }
    cpu.stats := cpu.stats.(instructionCount := cpu.stats.instructionCount + 1);
  }

  /** Loads from memory at the width the control signals ask for. */
  method LoadFrom(cpu: C.Cpu, address: Word, control: ControlSignals) returns (value: Option<Word>)
    ensures value == if InBounds(cpu.memory.Length, address, WidthInBytes(control.memoryWidth))
                     then Some(ReadMemory(cpu.memory[..], address, control)) else None
  {
    hide ReadU8, ReadU16, ReadU32, Index, SignExtend, WidenByte, WidenHalfWord;
    match control.memoryWidth
    case ByteAccess =>
      var byte := cpu.ReadU8(address);
      if byte.None? {
        return None;
      }
      var wide := WidenByte(byte.value);
      value := Some(Word(if control.memUnsigned then wide else SignExtend(wide, 8)));
    case HalfWordAccess =>
      var half := cpu.ReadU16(address);
      if half.None? {
        return None;
      }
      var wide := WidenHalfWord(half.value);
      value := Some(Word(if control.memUnsigned then wide else SignExtend(wide, 16)));
    case WordAccess =>
      var word := cpu.ReadU32(address);
      if word.None? {
        return None;
      }
      value := Some(Word(word.value));
    case NoAccess =>
      value := Some(ZERO);
  }

  /** Stores to memory and logs the write; an access without a width does neither. */
  method StoreTo(cpu: C.Cpu, address: Word, value: Word, control: ControlSignals) returns (ok: bool)
    modifies cpu`writes, cpu.memory
    ensures ok == InBounds(cpu.memory.Length, address, WidthInBytes(control.memoryWidth))
    ensures cpu.memory[..] ==
            if ok then WriteMemory(old(cpu.memory[..]), address, value, control) else old(cpu.memory[..])
    ensures cpu.writes == if ok && !control.memoryWidth.NoAccess?
                          then old(cpu.writes) + [MemoryWrite(address, WidthInBytes(control.memoryWidth))]
                          else old(cpu.writes)
  {
    hide WriteU8, WriteU16, WriteU32, Index, LowByte, LowHalfWord;
    match control.memoryWidth
    case ByteAccess => ok := cpu.WriteU8(address, LowByte(value.bits));
    case HalfWordAccess => ok := cpu.WriteU16(address, LowHalfWord(value.bits));
    case WordAccess => ok := cpu.WriteU32(address, value.bits);
    case NoAccess => ok := true;
  }

  /** A failed bounds check leaves at once, before the next latch is filled. */
  method StageMEM(cpu: C.Cpu, pipeline: R.PipelineRegisters) returns (ok: bool)
    requires cpu.Valid()
    modifies cpu, cpu.memory, pipeline`nextMemWb
    ensures cpu.Valid() && ok == !AccessThrows(cpu.memory.Length, pipeline.exMem)
    ensures ok ==> cpu.State() == MemoryStep(old(cpu.State()), pipeline.exMem)
    ensures ok ==> pipeline.nextMemWb == MemWbFrom(old(cpu.memory[..]), pipeline.exMem)
    ensures !ok ==> cpu.State() == old(cpu.State())
  {
    hide ReadMemory, WriteMemory, Index;
    var exMem := pipeline.exMem;
    if !exMem.valid {
      pipeline.nextMemWb := EMPTY_MEM_WB;
      return true;
    }
    var next := EMPTY_MEM_WB.(
      valid := true, pc := exMem.pc, instruction := exMem.instruction, rd := exMem.rd, aluResult := exMem.aluResult,
      pcPlus4 := exMem.pcPlus4, immediate := exMem.immediate, control := exMem.control);
    if exMem.control.memRead {
      var loaded := LoadFrom(cpu, exMem.aluResult, exMem.control);
      if loaded.None? {
        return false;
      }
      next := next.(memoryData := loaded.value);
    }
    if exMem.control.memWrite {
      var stored := StoreTo(cpu, exMem.aluResult, exMem.storeValue, exMem.control);
      if !stored {
        return false;
      }
    }
    pipeline.nextMemWb := next;
    ok := true;
  }

  /** Counts a branch and trains the predictor with it. */
  method LearnBranch(cpu: C.Cpu, branchPc: Word, taken: bool, mispredicted: bool)
    requires cpu.Valid()
    modifies cpu`stats, cpu.predictor.counters
    ensures cpu.State() == old(cpu.State()).(
              stats := StatsAfterBranch(old(cpu.stats), mispredicted),
              counters := Trained(old(cpu.State().counters), cpu.mode, branchPc, taken))
  {
    hide Trained;
    cpu.stats := cpu.stats.(branchPredictions := cpu.stats.branchPredictions + 1);
    if mispredicted {
      cpu.stats := cpu.stats.(branchMispredictions := cpu.stats.branchMispredictions + 1);
    }
    cpu.UpdateBranchPredictor(branchPc, taken);
  }

  /** Resolves the branch or jump in EX, trains the predictor, and redirects fetch when it went astray. */
  method StageEX(cpu: C.Cpu, pipeline: R.PipelineRegisters, control: StageControl)
    requires cpu.Valid() && !control.flushIdEx
    modifies cpu, cpu.predictor.counters, pipeline`nextExMem, control`flushIdEx
    ensures cpu.Valid()
    ensures var operands := Forwarded(pipeline.idEx, pipeline.exMem, pipeline.memWb);
            var resolution := Resolve(pipeline.idEx, operands.rs1Value, operands.rs2Value);
            && cpu.State() == ExecuteStep(old(cpu.State()), pipeline.idEx, resolution)
            && pipeline.nextExMem == ExMemFrom(pipeline.idEx, operands.rs1Value, operands.rs2Value)
            && control.flushIdEx == Redirects(pipeline.idEx, resolution)
  {
    hide Forwarded, ExecuteAlu, EvaluateBranch, Plus, PlusFour, ClearLowBit, Trained, StatsAfterBranch;
    var idEx := pipeline.idEx;
    if !idEx.valid {
      pipeline.nextExMem := EMPTY_EX_MEM;
      return;
    }
    var operands := ResolveForwarding(idEx, pipeline.exMem, pipeline.memWb);
    var lhs := if idEx.control.aluSrcPc then idEx.pc else operands.rs1Value;
    var rhs := if idEx.control.aluSrcImm then idEx.immediate else operands.rs2Value;
    var next := EMPTY_EX_MEM.(
      valid := true, pc := idEx.pc, instruction := idEx.instruction, rd := idEx.rd,
      aluResult := ExecuteAlu(idEx.control.aluOp, lhs, rhs), storeValue := operands.rs2Value,
      pcPlus4 := PlusFour(idEx.pc), immediate := idEx.immediate, control := idEx.control);
    var controlFlowResolved := false;
    var actualTarget := PlusFour(idEx.pc);
    if idEx.control.branch {
      controlFlowResolved := true;
      var actualTaken := EvaluateBranch(idEx.control.branchCondition, operands.rs1Value, operands.rs2Value);
      actualTarget := if actualTaken then Plus(idEx.pc, idEx.immediate) else PlusFour(idEx.pc);
      next := next.(branchTaken := actualTaken, branchTarget := actualTarget);
      LearnBranch(cpu, idEx.pc, actualTaken, idEx.predictedNextPc != actualTarget);
      assert Resolve(idEx, operands.rs1Value, operands.rs2Value) == Transfer(actualTaken, actualTarget);
    } else if idEx.control.jump {
      controlFlowResolved := true;
      actualTarget := if idEx.control.aluSrcPc then next.aluResult else ClearLowBit(next.aluResult);
      next := next.(branchTaken := true, branchTarget := actualTarget);
      assert Resolve(idEx, operands.rs1Value, operands.rs2Value) == Transfer(true, actualTarget);
    } else {
      assert Resolve(idEx, operands.rs1Value, operands.rs2Value) == NoTransfer;
    }
    hide Resolve;
    if controlFlowResolved && idEx.predictedNextPc != actualTarget {
      cpu.pc := actualTarget;
      control.flushIdEx := true;
    }
    pipeline.nextExMem := next;
  }

  method StageID(cpu: C.Cpu, pipeline: R.PipelineRegisters, control: StageControl)
    requires cpu.Valid() && !control.stopFetch
    modifies pipeline`nextIdEx, control`stopFetch
    ensures pipeline.nextIdEx
         == DecodeStep(pipeline.ifId, cpu.State().regs, control.flushIdEx, control.stallFetchDecode)
    ensures control.stopFetch == (pipeline.nextIdEx.valid && pipeline.nextIdEx.control.halt)
  {
    hide DecodeInstruction, ReadReg;
    if control.flushIdEx {
      pipeline.nextIdEx := EMPTY_ID_EX;
      return;
    }
    if control.stallFetchDecode {
      pipeline.nextIdEx := EMPTY_ID_EX;
      return;
    }
    var ifId := pipeline.ifId;
    if !ifId.valid {
      pipeline.nextIdEx := EMPTY_ID_EX;
      return;
    }
    var decoded := Decode(ifId.instruction);
    if !decoded.IsValid() {
      pipeline.nextIdEx := EMPTY_ID_EX;
      return;
    }
    var rs1Value := cpu.ReadRegister(decoded.rs1);
    var rs2Value := cpu.ReadRegister(decoded.rs2);
    var next := IdEx(
      true, ifId.pc, ifId.instruction, ifId.predictedTaken, ifId.predictedNextPc,
      decoded.format, decoded.rd, decoded.rs1, decoded.rs2, decoded.funct3, decoded.funct7, decoded.immediate,
      rs1Value, rs2Value, decoded.control);
    if next.control.halt {
      control.stopFetch := true;
    }
    pipeline.nextIdEx := next;
  }

  method StageIF(cpu: C.Cpu, pipeline: R.PipelineRegisters)
    requires cpu.Valid()
    modifies cpu, pipeline`nextIfId
    ensures cpu.Valid() && pipeline.nextIfId == FetchedAt(old(cpu.State()), CONFIGURED)
    ensures cpu.State() == FetchStep(old(cpu.State()), pipeline.nextIfId)
  {
    hide DecodeInstruction, ReadU32, Predict, Plus, PlusFour, Index;
    pipeline.nextIfId := pipeline.ifId;
    var pc := cpu.pc;
    if Index(pc) + 4 > cpu.memory.Length {
      pipeline.nextIfId := EMPTY_IF_ID;
      return;
    }
    var word := cpu.ReadU32(pc);
    var instruction := Word(word.value);
    var next := EMPTY_IF_ID.(valid := true, pc := pc, instruction := instruction, predictedNextPc := PlusFour(pc));
    var decoded := Decode(instruction);
    if decoded.IsValid() && decoded.control.branch {
      var taken := cpu.PredictBranch(pc);
      next := next.(predictedTaken := taken);
      if taken {
        next := next.(predictedNextPc := Plus(pc, decoded.immediate));
      }
    }
    cpu.pc := next.predictedNextPc;
    pipeline.nextIfId := next;
  }

  /** The first part of a cycle: WB, MEM, EX, and the load-use check unless EX flushes. */
  method RunBackStages(cpu: C.Cpu, pipeline: R.PipelineRegisters, control: StageControl) returns (ok: bool)
    requires cpu.Valid() && !control.flushIdEx && !control.stallFetchDecode
    modifies cpu, cpu.regs, cpu.memory, cpu.predictor.counters
    modifies pipeline`nextMemWb, pipeline`nextExMem, control`flushIdEx, control`stallFetchDecode
    ensures cpu.Valid() && ok == !AccessThrows(cpu.memory.Length, pipeline.exMem)
    ensures !ok ==> cpu.State() == WritebackStep(old(cpu.State()), pipeline.memWb)
    ensures ok ==>
              RunBackHalf(old(cpu.State()), pipeline.Current()) ==
              BackHalf(cpu.State(), pipeline.nextMemWb, pipeline.nextExMem, control.flushIdEx, control.stallFetchDecode)
  {
    hide WritebackStep, AccessThrows, MemoryStep, MemWbFrom, ExecuteStep, ExMemFrom, Redirects, Resolve, Forwarded,
         IsLoadUse;
    StageWB(cpu, pipeline);
    ok := StageMEM(cpu, pipeline);
    if !ok {
      return;
    }
    StageEX(cpu, pipeline, control);
    if !control.flushIdEx {
      var stall := DetectRawHazard(pipeline.ifId, pipeline.idEx);
      control.stallFetchDecode := stall;
      if stall {
        cpu.stats := cpu.stats.(stallCycles := cpu.stats.stallCycles + 1);
      }
    }
  }

  /** The second part of a cycle: ID, then IF unless a halt or a stall holds it. */
  method RunFrontStages(cpu: C.Cpu, pipeline: R.PipelineRegisters, control: StageControl)
    requires cpu.Valid() && !control.stopFetch
    modifies cpu, pipeline`nextIdEx, pipeline`nextIfId, control`stopFetch
    ensures cpu.Valid()
    ensures var back := BackHalf(old(cpu.State()), pipeline.nextMemWb, pipeline.nextExMem,
                                 control.flushIdEx, control.stallFetchDecode);
            RunFrontHalf(CONFIGURED, back, pipeline.Current()) == Machine(Tick(cpu.State()), pipeline.Next())
  {
    hide DecodeStep, FetchStep, FetchedAt, HaltInFlight;
    StageID(cpu, pipeline, control);
    if control.stopFetch || HaltInFlight(pipeline.Current()) {
      pipeline.nextIfId := EMPTY_IF_ID;
    } else if !control.stallFetchDecode {
      StageIF(cpu, pipeline);
    } else {
      pipeline.nextIfId := pipeline.ifId;
    }
  }

  /** One cycle. A failed bounds check in MEM leaves it at once: nothing is committed and the clock does not tick. */
  method RunPipelineCycle(cpu: C.Cpu, pipeline: R.PipelineRegisters) returns (ok: bool)
    requires cpu.Valid()
    modifies cpu, cpu.regs, cpu.memory, cpu.predictor.counters, pipeline
    ensures cpu.Valid()
    ensures var result := Cycle(CONFIGURED, Machine(old(cpu.State()), old(pipeline.Current())));
            ok == result.Ticked? && Machine(cpu.State(), pipeline.Current()) == result.machine
  {
    hide WritebackStep, AccessThrows, RunBackHalf, RunFrontHalf;
    pipeline.ClearNext();
    var control := new StageControl();
    ok := RunBackStages(cpu, pipeline, control);
    if !ok {
      return;
    }
    RunFrontStages(cpu, pipeline, control);
    pipeline.Commit();
    cpu.stats := cpu.stats.(clockCycles := cpu.stats.clockCycles + 1);
  }
}
