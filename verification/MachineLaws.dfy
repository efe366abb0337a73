/** What holds in every run of the pipeline, whatever its program does: the reference machine plays no part here. */
module MachineLaws {
  import opened Words
  import opened Memory
  import opened BranchPredictor
  import opened PipelineRegisters
  import opened Instruction
  import opened CpuState
  import opened Forwarding
  import opened Hazard
  import opened Stages
  import opened Refinement
  import opened Accounting

  // Cycles

  lemma TickMeansNoThrow(predict: Prediction, m: Machine)
    ensures Cycle(predict, m).Ticked? <==> !AccessThrows(|m.cpu.memory|, m.latches.exMem)
  {
    hide RunBackHalf, RunFrontHalf, WritebackStep, AccessThrows;
  }

  /** A cycle that ticks adds one to the clock, and at most one to the retired instructions. */
  lemma CycleTicks(predict: Prediction, m: Machine)
    ensures Cycle(predict, m).Ticked? ==>
              var was, now := m.cpu.stats, Cycle(predict, m).machine.cpu.stats;
              now.clockCycles == was.clockCycles + 1 && now.instructionCount <= was.instructionCount + 1
  {
    hide RunBackHalf, RunFrontHalf, WritebackStep, AccessThrows;
    if !AccessThrows(|m.cpu.memory|, m.latches.exMem) {
      CycleStats(predict, m);
    }
  }

  /** A cycle that throws counts nothing but what WB has retired, and leaves pc and latches as they are. */
  lemma ThrowKeepsStats(predict: Prediction, m: Machine)
    ensures Cycle(predict, m).Thrown? ==>
              var was, now := m.cpu.stats, Cycle(predict, m).machine.cpu.stats;
              && now.clockCycles == was.clockCycles && now.stallCycles == was.stallCycles
              && now.branchPredictions == was.branchPredictions
              && now.branchMispredictions == was.branchMispredictions
    ensures var result := Cycle(predict, m);
            result.Thrown? ==> result.machine.cpu.pc == m.cpu.pc && result.machine.latches == m.latches
  {
    hide AccessThrows, RunBackHalf, RunFrontHalf, RegsAfterWriteback;
  }

  // Runs

  /** The cycle after `n` cycles of a run ticks. */
  predicate TicksAfter(predict: Prediction, start: Machine, n: nat) {
    var result := Run(predict, start, n);
    result.Ticked? && !result.machine.cpu.halted && Cycle(predict, result.machine).Ticked?
  }

  /** No further cycle changes anything. */
  predicate Over(result: CycleResult) {
    result.Thrown? || result.machine.cpu.halted
  }

  lemma OneMoreCycle(predict: Prediction, start: Machine, n: nat)
    ensures !Over(Run(predict, start, n)) ==>
              Run(predict, start, n + 1) == Cycle(predict, Run(predict, start, n).machine)
    ensures Over(Run(predict, start, n)) ==> Run(predict, start, n + 1) == Run(predict, start, n)
  {
    hide Cycle;
  }

  lemma {:induction false} OverStays(predict: Prediction, start: Machine, n: nat, k: nat)
    requires n <= k && Over(Run(predict, start, n))
    ensures Run(predict, start, k) == Run(predict, start, n)
  {
    hide Cycle;
    if n < k {
      OverStays(predict, start, n, k - 1);
    }
  }

  lemma NotOverBefore(predict: Prediction, start: Machine, n: nat, k: nat)
    requires n <= k && !Over(Run(predict, start, k))
    ensures !Over(Run(predict, start, n))
  {
    hide Run, Over;
    if Over(Run(predict, start, n)) {
      OverStays(predict, start, n, k);
    }
  }

  // The write log

  predicate LogCovers(write: MemoryWrite, i: nat) {
    Index(write.address) <= i < Index(write.address) + write.byteCount
  }

  /** Every logged range lies within memory. */
  ghost predicate LogFits(writes: seq<MemoryWrite>, size: nat) {
    forall k: nat | k < |writes| :: Index(writes[k].address) + writes[k].byteCount <= size
  }

  /** `now` follows from `was` by logging at most one write, which covers all that has changed. */
  ghost predicate LogsItsChange(was: CpuState, now: CpuState) {
    && |now.memory| == |was.memory|
    && (now.writes == was.writes || exists write: MemoryWrite :: now.writes == was.writes + [write])
    && forall i: nat | i < |was.memory| && now.memory[i] != was.memory[i] ::
         |now.writes| == |was.writes| + 1 && LogCovers(now.writes[|was.writes|], i)
  }

  lemma StoreLogsItsChange(cpu: CpuState, exMem: ExMem)
    requires !AccessThrows(|cpu.memory|, exMem)
    ensures LogsItsChange(cpu, MemoryStep(cpu, exMem))
    ensures LogFits(cpu.writes, |cpu.memory|) ==> LogFits(MemoryStep(cpu, exMem).writes, |cpu.memory|)
  {
    hide Index, LowByte, LowHalfWord, LowByteOfHalf, HighByteOfHalf;
  }

  /** Of a whole cycle, only MEM touches memory and the log. */
  lemma OnlyMemTouchesMemory(predict: Prediction, m: Machine)
    ensures var result := Cycle(predict, m);
            var accessed := if result.Ticked? then MemoryStep(m.cpu, m.latches.exMem) else m.cpu;
            result.machine.cpu.memory == accessed.memory && result.machine.cpu.writes == accessed.writes
  {
    hide RegsAfterWriteback, MemoryAfterStore, WritesAfterStore, RunFrontHalf, Forwarded, Resolve, IsLoadUse, Trained,
         MemWbFrom, ExMemFrom, AccessThrows;
    if !AccessThrows(|m.cpu.memory|, m.latches.exMem) {
      FrontHalfFrame(predict, RunBackHalf(m.cpu, m.latches), m.latches);
    }
  }

  lemma CycleLogsItsChange(predict: Prediction, m: Machine)
    ensures var now := Cycle(predict, m).machine.cpu;
            && LogsItsChange(m.cpu, now)
            && (LogFits(m.cpu.writes, |m.cpu.memory|) ==> LogFits(now.writes, |now.memory|))
  {
    hide Cycle, MemoryAfterStore, WritesAfterStore, AccessThrows, LogFits, LogCovers;
    OnlyMemTouchesMemory(predict, m);
    TickMeansNoThrow(predict, m);
    if Cycle(predict, m).Ticked? {
      StoreLogsItsChange(m.cpu, m.latches.exMem);
    }
  }

  lemma ChangeStaysLogged(start: CpuState, was: CpuState, now: CpuState, i: nat)
    requires LogsItsChange(was, now) && i < |start.memory| == |was.memory| && |start.writes| <= |was.writes|
    requires was.memory[i] != start.memory[i] ==>
               exists j: nat :: |start.writes| <= j < |was.writes| && LogCovers(was.writes[j], i)
    ensures now.memory[i] != start.memory[i] ==>
              exists j: nat :: |start.writes| <= j < |now.writes| && LogCovers(now.writes[j], i)
  {
    hide LogCovers;
    if now.memory[i] != start.memory[i] {
      if was.memory[i] != start.memory[i] {
        var j: nat :| |start.writes| <= j < |was.writes| && LogCovers(was.writes[j], i);
        assert now.writes[j] == was.writes[j];
      } else {
        assert LogCovers(now.writes[|was.writes|], i);
      }
    }
  }

  /**
   * From any machine, after any number of cycles and also at a throw: memory keeps its size, the log grows, and every
   * byte of memory that has changed lies in a range logged since.
   */
  lemma {:induction false} RunLogsItsWrites(predict: Prediction, start: Machine, n: nat, i: nat)
    requires i < |start.cpu.memory|
    ensures var cpu := Run(predict, start, n).machine.cpu;
            && |cpu.memory| == |start.cpu.memory| && |start.cpu.writes| <= |cpu.writes|
            && (cpu.memory[i] != start.cpu.memory[i] ==>
                  exists j: nat :: |start.cpu.writes| <= j < |cpu.writes| && LogCovers(cpu.writes[j], i))
  {
    hide Cycle, LogCovers;
    if n > 0 {
      RunLogsItsWrites(predict, start, n - 1, i);
      var before := Run(predict, start, n - 1).machine;
      if !Over(Run(predict, start, n - 1)) {
        CycleLogsItsChange(predict, before);
        ChangeStaysLogged(start.cpu, before.cpu, Cycle(predict, before).machine.cpu, i);
      }
    }
  }

  /** And if the log lies within memory at the start, it always does. */
  lemma {:induction false} RunLogFits(predict: Prediction, start: Machine, n: nat)
    requires LogFits(start.cpu.writes, |start.cpu.memory|)
    ensures var cpu := Run(predict, start, n).machine.cpu;
            LogFits(cpu.writes, |cpu.memory|) && |cpu.memory| == |start.cpu.memory|
  {
    hide Cycle, LogCovers, LogFits;
    if n > 0 {
      RunLogFits(predict, start, n - 1);
      if !Over(Run(predict, start, n - 1)) {
        CycleLogsItsChange(predict, Run(predict, start, n - 1).machine);
      }
    }
  }

  // The halt barrier

  predicate Halts(control: ControlSignals) {
    control.halt && !control.branch && !control.jump && !control.memRead
  }

  /** Behind a halt that has left ID the latches are empty, and a halt neither transfers control nor loads. */
  predicate Barred(l: Latches) {
    && (l.idEx.valid && l.idEx.control.halt ==> l.ifId == EMPTY_IF_ID && Halts(l.idEx.control))
    && (l.exMem.valid && l.exMem.control.halt ==> l.ifId == EMPTY_IF_ID && l.idEx == EMPTY_ID_EX)
    && (l.memWb.valid && l.memWb.control.halt ==>
          l.ifId == EMPTY_IF_ID && l.idEx == EMPTY_ID_EX && l.exMem == EMPTY_EX_MEM)
  }

  lemma DecodedHaltIsPlain(ifId: IfId, regs: RegFile, flush: bool, stall: bool)
    ensures var idEx := DecodeStep(ifId, regs, flush, stall);
            idEx.valid && idEx.control.halt ==> Halts(idEx.control)
  {
    hide DecodeInstruction, ClassOf, AluOpOf, ConditionOf, AccessWidthOf, ReadReg;
    DecodedControl(ifId.instruction);
  }

  lemma NothingIsDecoded(regs: RegFile, flush: bool, stall: bool)
    ensures DecodeStep(EMPTY_IF_ID, regs, flush, stall) == EMPTY_ID_EX
  {
    hide DecodeInstruction;
  }

  /** EX does not move the program counter unless it holds a transfer, and hands control signals on. */
  lemma BackHalfHandsOn(m: Machine)
    requires !AccessThrows(|m.cpu.memory|, m.latches.exMem)
    ensures var l, back := m.latches, RunBackHalf(m.cpu, m.latches);
            && (!(l.idEx.valid && (l.idEx.control.branch || l.idEx.control.jump)) ==>
                  !back.flush && back.cpu.pc == m.cpu.pc)
            && (if l.idEx.valid then back.exMem.valid && back.exMem.control == l.idEx.control
                else back.exMem == EMPTY_EX_MEM)
            && (if l.exMem.valid then back.memWb.valid && back.memWb.control == l.exMem.control
                else back.memWb == EMPTY_MEM_WB)
  {
    hide Forwarded, AluResult, EvaluateBranch, ClearLowBit, DecodeInstruction, DependsOn, SourcesOf, ReadMemory,
         RegsAfterWriteback, MemoryAfterStore, WritesAfterStore, Trained;
  }

  lemma FrontHalfBars(predict: Prediction, back: BackHalf, latches: Latches)
    ensures var after := RunFrontHalf(predict, back, latches);
            && (after.latches.idEx.valid && after.latches.idEx.control.halt ==> after.latches.ifId == EMPTY_IF_ID)
            && (HaltInFlight(latches) ==> after.latches.ifId == EMPTY_IF_ID && after.cpu.pc == back.cpu.pc)
  {
    hide DecodeStep, FetchedAt, HaltInFlight;
  }

  lemma CycleKeepsBarred(predict: Prediction, m: Machine)
    requires Barred(m.latches) && Cycle(predict, m).Ticked?
    ensures var after := Cycle(predict, m).machine;
            && Barred(after.latches)
            && (HaltInFlight(m.latches) ==>
                  && after.latches.idEx == EMPTY_ID_EX && after.latches.ifId == EMPTY_IF_ID
                  && after.cpu.pc == m.cpu.pc)
  {
    hide RunBackHalf, RunFrontHalf, AccessThrows, DecodeStep, WritebackStep;
    TickMeansNoThrow(predict, m);
    var back := RunBackHalf(m.cpu, m.latches);
    BackHalfHandsOn(m);
    FrontHalfFrame(predict, back, m.latches);
    FrontHalfBars(predict, back, m.latches);
    DecodedHaltIsPlain(m.latches.ifId, back.cpu.regs, back.flush, back.stall);
    if HaltInFlight(m.latches) {
      NothingIsDecoded(back.cpu.regs, back.flush, back.stall);
    }
  }

  lemma {:induction false} RunIsBarred(predict: Prediction, start: Machine, n: nat)
    requires start.latches == EMPTY_LATCHES && Run(predict, start, n).Ticked?
    ensures Barred(Run(predict, start, n).machine.latches)
  {
    hide Cycle;
    if n > 0 {
      hide Barred;
      RunIsBarred(predict, start, n - 1);
      if !Over(Run(predict, start, n - 1)) {
        CycleKeepsBarred(predict, Run(predict, start, n - 1).machine);
      }
    }
  }

  /**
   * In every run from empty latches, whatever the program: once a halt has left ID, the next cycle lets nothing into
   * ID/EX or IF/ID and leaves the program counter alone.
   */
  lemma NothingPassesHalt(predict: Prediction, start: Machine, n: nat)
    requires start.latches == EMPTY_LATCHES
    requires Run(predict, start, n).Ticked? && Run(predict, start, n + 1).Ticked?
    requires var m := Run(predict, start, n).machine; !m.cpu.halted && HaltInFlight(m.latches)
    ensures var m, after := Run(predict, start, n).machine, Run(predict, start, n + 1).machine;
            after.latches.idEx == EMPTY_ID_EX && after.latches.ifId == EMPTY_IF_ID && after.cpu.pc == m.cpu.pc
  {
    hide Cycle, Barred, HaltInFlight;
    RunIsBarred(predict, start, n);
    OneMoreCycle(predict, start, n);
    CycleKeepsBarred(predict, Run(predict, start, n).machine);
  }
}
