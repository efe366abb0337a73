/** The state of the simulated CPU as one value (include/cpu.hpp, src/cpu.cpp). */
module CpuState {
  import opened Words
  import opened Memory
  import opened BranchPredictor

  datatype ExecutionStats = ExecutionStats(
    clockCycles: nat,
    instructionCount: nat,
    stallCycles: nat,
    branchPredictions: nat,
    branchMispredictions: nat)

  const NO_STATS := ExecutionStats(0, 0, 0, 0, 0)

  datatype CpuState = CpuState(
    regs: RegFile,
    pc: Word,
    halted: bool,
    memory: seq<Byte>,
    writes: seq<MemoryWrite>,
    stats: ExecutionStats,
    mode: BranchPredictorType,
    counters: CounterTable)

  /** A CPU just reset, with this memory. */
  function AfterReset(memory: seq<Byte>, mode: BranchPredictorType): CpuState {
    CpuState(seq(32, _ => ZERO), ZERO, false, memory, [], NO_STATS, mode, INITIAL_COUNTERS)
  }

  /** What software finds after a reset, field by field. */
  ghost predicate Cleared(cpu: CpuState) {
    && (forall k: nat | k < 32 :: cpu.regs[k].bits == 0) && (forall r: bv5 :: ReadReg(cpu.regs, X(r)).bits == 0)
    && cpu.pc.bits == 0 && !cpu.halted && cpu.writes == []
    && cpu.stats.clockCycles == cpu.stats.instructionCount == cpu.stats.stallCycles == 0
    && cpu.stats.branchPredictions == cpu.stats.branchMispredictions == 0
    && (forall k: nat | k < 64 :: cpu.counters[k] == 1)
    && (forall branchPc: Word :: !Predict(cpu.counters, TwoBitSaturating, branchPc))
  }

  lemma ResetClears(memory: seq<Byte>, mode: BranchPredictorType)
    ensures Cleared(AfterReset(memory, mode))
    ensures AfterReset(memory, mode).memory == memory && AfterReset(memory, mode).mode == mode
  {
    hide IndexFor;
  }
}
