/**
 * Whole runs: for every memory image, every way of predicting branches and every number of cycles, the pipeline does
 * what the reference machine does, and takes exactly as long as the trace and the redirects account for.
 */
module Runs {
  import opened Words
  import opened BranchPredictor
  import opened PipelineRegisters
  import opened Instruction
  import opened CpuState
  import opened Forwarding
  import opened Hazard
  import opened Stages
  import opened Isa
  import opened LatchInvariants
  import opened Refinement
  import opened Accounting
  import opened MachineLaws
  import opened FetchWindow

  /** A machine about to run the program at `a`: empty latches, and counters at zero. */
  predicate Starts(m: Machine, a: Arch) {
    && m.latches == EMPTY_LATCHES && !m.cpu.halted && m.cpu.stats == NO_STATS
    && m.cpu.regs == a.regs && m.cpu.memory == a.memory && m.cpu.pc == a.pc && m.cpu.writes == a.writes
  }

  /** What the trace knows of a machine in the middle of a run. */
  ghost predicate Reached(a: Arch, table: CounterTable, mode: BranchPredictorType, p: Positions, m: Machine) {
    Inv(a, p, m) && StatsInv(a, table, p, m) && m.cpu.mode == mode
  }

  /** The CPU is exactly as the reference machine is just before entry `k`, which faults. */
  ghost predicate FaultsPrecisely(a: Arch, table: CounterTable, k: nat, cpu: CpuState) {
    && Live(a, k) && EventAt(After(a, k)).Fault?
    && cpu.regs == After(a, k).regs && cpu.memory == After(a, k).memory && cpu.writes == After(a, k).writes
    && !cpu.halted
    && cpu.stats.instructionCount == Count(RetiresIn(a), k)
    && cpu.counters == TrainedBy(a, cpu.mode, table, k)
  }

  lemma StartInv(a: Arch, m: Machine)
    requires Starts(m, a)
    ensures Reached(a, m.cpu.counters, m.cpu.mode, Positions(0, 0, 0, 0, 0), m)
  {
    hide EventAt, MemWbHolds, ExMemHolds, IdExHolds, IfIdHolds, Step, LoadUse;
  }

  lemma CycleReaches(a: Arch, table: CounterTable, mode: BranchPredictorType, p: Positions, m: Machine,
                     predict: Prediction)
    requires FetchFresh(a, p, m) && Reached(a, table, mode, p, m) && !m.cpu.halted && Cycle(predict, m).Ticked?
    ensures Reached(a, table, mode, NextPositions(a, p, m), Cycle(predict, m).machine)
  {
    hide Inv, StatsInv, NextPositions, RunBackHalf, RunFrontHalf, AccessThrows, WritebackStep;
    CyclePreserves(a, p, m, predict);
    StatsPreserved(a, table, p, m, predict);
    CycleBranchStats(predict, m);
  }

  lemma CycleThrowsPrecisely(a: Arch, table: CounterTable, mode: BranchPredictorType, p: Positions, m: Machine,
                             predict: Prediction)
    requires Reached(a, table, mode, p, m) && !m.cpu.halted && Cycle(predict, m).Thrown?
    ensures FaultsPrecisely(a, table, p.mem, Cycle(predict, m).machine.cpu)
    ensures Consecutive(p) && p.ex == p.mem + 1
    ensures Cycle(predict, m).machine.cpu.mode == mode
  {
    hide Inv, NextPositions, RunBackHalf, RunFrontHalf, AccessThrows, FetchFresh, Live, After, RegsAfterWriteback,
         StallsMatch, CyclesMatch, EventAt, Good, Counting, EntersOnTime, Retires, Transfers, JumpsAway, Decoded;
    ThrowIsPrecise(a, p, m);
    RetiredEntry(a, p, m);
    CutsAreConsecutive(a, p, m);
    LiveMeansNoHalt(a, p.mem);
  }

  /** Where the trace is cut after `n` cycles of a run. */
  ghost function PositionsAt(predict: Prediction, a: Arch, start: Machine, n: nat): Positions {
    if n == 0 then Positions(0, 0, 0, 0, 0)
    else
      var before := PositionsAt(predict, a, start, n - 1);
      if TicksAfter(predict, start, n - 1) then NextPositions(a, before, Run(predict, start, n - 1).machine) else before
  }

  /** What keeps stores from being fetched past: for every predictor, or exactly for the configured one. */
  ghost predicate FetchesSafely(predict: Prediction, a: Arch, start: Machine) {
    || NoStaleFetch(a)
    || (predict == CONFIGURED && FetchesAreFresh(a, RedirectsIn(a, start.cpu.mode, start.cpu.counters)))
  }

  ghost predicate FreshAt(predict: Prediction, a: Arch, start: Machine, n: nat) {
    TicksAfter(predict, start, n) ==>
      FetchFresh(a, PositionsAt(predict, a, start, n), Run(predict, start, n).machine)
  }

  /** All that is known of a run after `n` cycles. */
  ghost predicate ReachedAt(predict: Prediction, a: Arch, start: Machine, n: nat) {
    var p, result := PositionsAt(predict, a, start, n), Run(predict, start, n);
    && (result.Ticked? ==> Reached(a, start.cpu.counters, start.cpu.mode, p, result.machine))
    && (result.Ticked? ==> BubblesFollow(a, MayRedirectIn(a), p, result.machine.latches))
    && (result.Ticked? && predict == CONFIGURED ==>
          PathInv(a, RedirectsIn(a, start.cpu.mode, start.cpu.counters), p, result.machine.latches))
    && (result.Thrown? ==>
          && FaultsPrecisely(a, start.cpu.counters, p.mem, result.machine.cpu)
          && Consecutive(p) && p.ex == p.mem + 1)
  }

  lemma ConfiguredPredictsOnPath(a: Arch, table: CounterTable, mode: BranchPredictorType, p: Positions, m: Machine)
    requires FetchFresh(a, p, m) && Reached(a, table, mode, p, m) && !m.cpu.halted && Cycle(CONFIGURED, m).Ticked?
    requires PathInv(a, RedirectsIn(a, mode, table), p, m.latches)
    ensures PredictsAs(a, RedirectsIn(a, mode, table), p, m, CONFIGURED)
  {
    CycleReaches(a, table, mode, p, m, CONFIGURED);
    hide Inv, NextPositions, RunBackHalf, RunFrontHalf, AccessThrows, WritebackStep, FetchFresh, PathInv, StallsMatch,
         CyclesMatch, Good, Fetching, Retires, Branches, TrainedWith, PredictsAs, RedirectsAt;
    NextCuts(a, p, m);
    TickMeansNoThrow(CONFIGURED, m);
    ConfiguredPredictsAs(a, mode, table, p, m);
  }

  lemma CycleFollowsPath(a: Arch, table: CounterTable, mode: BranchPredictorType, p: Positions, m: Machine)
    requires FetchFresh(a, p, m) && Reached(a, table, mode, p, m) && !m.cpu.halted && Cycle(CONFIGURED, m).Ticked?
    requires PathInv(a, RedirectsIn(a, mode, table), p, m.latches)
    ensures PathInv(a, RedirectsIn(a, mode, table), NextPositions(a, p, m), Cycle(CONFIGURED, m).machine.latches)
  {
    hide Inv, StatsInv, NextPositions, Cycle, AccessThrows, FetchFresh, PathInv, PredictsAs, RedirectsAt;
    TickMeansNoThrow(CONFIGURED, m);
    ConfiguredPredictsOnPath(a, table, mode, p, m);
    PathPreserved(a, RedirectsIn(a, mode, table), p, m, CONFIGURED);
  }

  lemma StartPath(a: Arch, redirects: nat -> bool, start: Machine)
    requires Starts(start, a)
    ensures PathInv(a, redirects, Positions(0, 0, 0, 0, 0), start.latches)
  {
    hide Good, Mispredicted;
  }

  /** No predictor redirects behind anything but a transfer that it can get wrong. */
  lemma CycleBubbles(a: Arch, table: CounterTable, mode: BranchPredictorType, p: Positions, m: Machine,
                     predict: Prediction)
    requires Reached(a, table, mode, p, m) && !m.cpu.halted && Cycle(predict, m).Ticked?
    ensures BubblesFollow(a, MayRedirectIn(a), NextPositions(a, p, m), Cycle(predict, m).machine.latches)
  {
    hide Inv, StatsInv, NextPositions, Cycle, AccessThrows, Good, Mispredicted, BubblesFollow, MayRedirect;
    TickMeansNoThrow(predict, m);
    if Good(a, p.id) && Mispredicted(a, p, m.latches.idEx) {
      GoodBelow(a, p, m);
      MispredictedMayRedirect(a, p, m);
    }
    BubblesPreserved(a, MayRedirectIn(a), p, m, predict);
  }

  lemma Advances(predict: Prediction, a: Arch, start: Machine, n: nat)
    requires ReachedAt(predict, a, start, n) && FreshAt(predict, a, start, n)
    ensures ReachedAt(predict, a, start, n + 1)
  {
    hide Reached, FaultsPrecisely, Cycle, FetchFresh, PathInv, NextPositions, BubblesFollow;
    var before, p := Run(predict, start, n), PositionsAt(predict, a, start, n);
    if before.Ticked? && !before.machine.cpu.halted {
      if Cycle(predict, before.machine).Ticked? {
        CycleReaches(a, start.cpu.counters, start.cpu.mode, p, before.machine, predict);
        CycleBubbles(a, start.cpu.counters, start.cpu.mode, p, before.machine, predict);
        if predict == CONFIGURED {
          CycleFollowsPath(a, start.cpu.counters, start.cpu.mode, p, before.machine);
        }
      } else {
        CycleThrowsPrecisely(a, start.cpu.counters, start.cpu.mode, p, before.machine, predict);
      }
    }
  }

  lemma ReachedAtStart(predict: Prediction, a: Arch, start: Machine)
    requires Starts(start, a)
    ensures ReachedAt(predict, a, start, 0)
  {
    StartInv(a, start);
    StartPath(a, MayRedirectIn(a), start);
    StartPath(a, RedirectsIn(a, start.cpu.mode, start.cpu.counters), start);
    hide Starts, Reached, FaultsPrecisely, Good, Mispredicted, MispredictedInIfId, MayRedirect, RedirectsAt;
  }

  lemma SafeIsFresh(predict: Prediction, a: Arch, start: Machine, n: nat)
    requires FetchesSafely(predict, a, start) && ReachedAt(predict, a, start, n)
    ensures FreshAt(predict, a, start, n)
  {
    hide Inv, StatsInv, FaultsPrecisely, PathInv, FetchFresh, Run, Cycle, NoStaleFetch, FetchesAreFresh, PositionsAt,
         BubblesFollow;
    if TicksAfter(predict, start, n) {
      var p, m := PositionsAt(predict, a, start, n), Run(predict, start, n).machine;
      if NoStaleFetch(a) {
        NoStaleFetchIsFresh(a, p, m);
      } else {
        FreshWhenTraceIs(a, RedirectsIn(a, start.cpu.mode, start.cpu.counters), p, m);
      }
    }
  }

  /** Induction over the cycles of a run. */
  lemma {:induction false} Reaches(predict: Prediction, a: Arch, start: Machine, n: nat)
    requires FetchesSafely(predict, a, start) && Starts(start, a)
    ensures ReachedAt(predict, a, start, n)
  {
    hide FetchesSafely, Starts, ReachedAt, FreshAt;
    if n == 0 {
      ReachedAtStart(predict, a, start);
    } else {
      Reaches(predict, a, start, n - 1);
      SafeIsFresh(predict, a, start, n - 1);
      Advances(predict, a, start, n - 1);
    }
  }

  // Refinement

  /**
   * The registers are the reference machine's after exactly the entries that have left WB, memory and the write log
   * after exactly those that have left MEM, and the counters tell how many instructions that is.
   */
  ghost predicate Refines(a: Arch, m: Machine, retired: nat, accessed: nat) {
    && retired <= accessed <= retired + 1
    && m.cpu.regs == After(a, retired).regs
    && m.cpu.memory == After(a, accessed).memory
    && m.cpu.writes == After(a, accessed).writes
    && m.cpu.stats.instructionCount == Count(RetiresIn(a), retired)
    && Count(RetiresIn(a), accessed) == Count(RetiresIn(a), retired) + (if m.latches.memWb.valid then 1 else 0)
    && Good(a, accessed)
    && (m.cpu.halted <==> HaltsAt(a, retired))
  }

  /**
   * The pipeline refines the ISA at every moment of every run, however branches are predicted: the registers are the
   * ISA's at the cut of WB, memory and the log at the cut of MEM.
   */
  lemma RunRefinesIsa(predict: Prediction, a: Arch, start: Machine, n: nat)
    requires FetchesSafely(predict, a, start) && Starts(start, a) && Run(predict, start, n).Ticked?
    ensures var p := PositionsAt(predict, a, start, n);
            Consecutive(p) && Refines(a, Run(predict, start, n).machine, p.wb, p.mem)
  {
    hide FetchesSafely, Starts, Run, PositionsAt, Refines, Inv, StatsInv, PathInv;
    Reaches(predict, a, start, n);
    var p, m := PositionsAt(predict, a, start, n), Run(predict, start, n).machine;
    CutsAreConsecutive(a, p, m);
    RefinesAtCuts(a, start.cpu.counters, start.cpu.mode, p, m);
  }

  lemma RefinesAtCuts(a: Arch, table: CounterTable, mode: BranchPredictorType, p: Positions, m: Machine)
    requires Reached(a, table, mode, p, m)
    ensures Refines(a, m, p.wb, p.mem)
  {
    hide Live, EventAt, After, MemWbSlot, ExMemSlot, IdExSlot, FetchSlot, StallsMatch, CyclesMatch, Fetching, Retires,
         Good;
    RetiredEntry(a, p, m);
  }

  /** A throw leaves the CPU exactly as the ISA is before the faulting access: nothing younger has left a trace. */
  lemma FaultsArePrecise(predict: Prediction, a: Arch, start: Machine, n: nat)
    requires FetchesSafely(predict, a, start) && Starts(start, a) && Run(predict, start, n).Thrown?
    ensures FaultsPrecisely(a, start.cpu.counters, PositionsAt(predict, a, start, n).mem,
                            Run(predict, start, n).machine.cpu)
  {
    hide FetchesSafely, Starts, Run, FaultsPrecisely, Reached, PathInv, PositionsAt;
    Reaches(predict, a, start, n);
  }

  /**
   * In every state a run reaches, EX is given the ISA's value of every register its instruction reads, just before
   * that instruction: the entry is the one or the second one after those that the registers and memory have seen.
   */
  lemma OperandsAreCorrect(predict: Prediction, a: Arch, start: Machine, n: nat)
    requires FetchesSafely(predict, a, start) && Starts(start, a) && Run(predict, start, n).Ticked?
    requires var m := Run(predict, start, n).machine;
             m.latches.idEx.valid && !AccessThrows(|m.cpu.memory|, m.latches.exMem)
    ensures var p, m := PositionsAt(predict, a, start, n), Run(predict, start, n).machine;
            Consecutive(p) && Refines(a, m, p.wb, p.mem) && InExecute(a, p.ex, m.latches)
  {
    hide FetchesSafely, Starts, Run, AccessThrows, PositionsAt, Refines, Inv, StatsInv, InExecute, PathInv;
    Reaches(predict, a, start, n);
    RunRefinesIsa(predict, a, start, n);
    InExecuteAtCut(a, PositionsAt(predict, a, start, n), Run(predict, start, n).machine);
  }

  /** The instruction in EX is entry `k` of the trace, and forwarding gives it entry `k`'s operands. */
  ghost predicate InExecute(a: Arch, k: nat, latches: Latches) {
    var b := After(a, k);
    var d := DecodeInstruction(FetchWord(b));
    var operands := Forwarded(latches.idEx, latches.exMem, latches.memWb);
    && Live(a, k) && latches.idEx.pc == b.pc && latches.idEx.instruction == FetchWord(b)
    && (ReadsRs1(d.kind) ==> operands.rs1Value == ReadReg(b.regs, d.rs1))
    && (ReadsRs2(d.kind) ==> operands.rs2Value == ReadReg(b.regs, d.rs2))
  }

  lemma InExecuteAtCut(a: Arch, p: Positions, m: Machine)
    requires Inv(a, p, m) && !AccessThrows(|m.cpu.memory|, m.latches.exMem) && m.latches.idEx.valid
    ensures InExecute(a, p.ex, m.latches)
  {
    hide Inv, Good, EventAt, After, AccessThrows, DecodeInstruction, FetchWord, Forwarded, ReadReg, ReadsRs1, ReadsRs2;
    OperandsCorrect(a, p, m);
    ExecutingIsGood(a, p, m);
    IdExInSlot(a, p, m);
    EntryInIdEx(a, p, m);
  }

  lemma EntryInIdEx(a: Arch, p: Positions, m: Machine)
    requires Inv(a, p, m) && Good(a, p.ex) && m.latches.idEx.valid
    ensures Live(a, p.ex) && m.latches.idEx.pc == After(a, p.ex).pc
    ensures m.latches.idEx.instruction == FetchWord(After(a, p.ex))
  {
    hide Good, Live, After, MemWbSlot, ExMemSlot, FetchSlot, CpuMatches, LoadUseFree, DecodeInstruction, FetchWord,
         EventAt;
    DecodedIsWellControlled(After(a, p.ex));
  }

  // The path

  /** A stage covers entries [low, high): its latch is valid exactly when there is one and it is an instruction. */
  ghost predicate Covers(a: Arch, low: nat, high: nat, valid: bool, pc: Word, instruction: Word) {
    && low <= high <= low + 1
    && (valid <==> high == low + 1 && !EventAt(After(a, low)).Skip?)
    && (valid ==> Live(a, low) && pc == After(a, low).pc && instruction == FetchWord(After(a, low)))
  }

  /**
   * The latches hold consecutive entries of the trace, in order, without gaps or duplicates. What is younger than a
   * faulting access is excepted, and IF/ID is while ID/EX holds a transfer that went elsewhere than predicted.
   */
  ghost predicate FollowsTrace(a: Arch, p: Positions, l: Latches) {
    && Covers(a, p.wb, p.mem, l.memWb.valid, l.memWb.pc, l.memWb.instruction)
    && Covers(a, p.mem, p.ex, l.exMem.valid, l.exMem.pc, l.exMem.instruction)
    && (Good(a, p.ex) ==> Covers(a, p.ex, p.id, l.idEx.valid, l.idEx.pc, l.idEx.instruction))
    && (Good(a, p.id) && !Mispredicted(a, p, l.idEx) ==>
          && p.id <= p.next <= p.id + 1
          && (l.ifId.valid <==> p.next == p.id + 1)
          && (l.ifId.valid ==>
                Live(a, p.id) && l.ifId.pc == After(a, p.id).pc && l.ifId.instruction == FetchWord(After(a, p.id))))
  }

  /** The cuts that the latches follow are those at which registers and memory are the ISA's. */
  lemma LatchesFollowTrace(predict: Prediction, a: Arch, start: Machine, n: nat)
    requires FetchesSafely(predict, a, start) && Starts(start, a) && Run(predict, start, n).Ticked?
    ensures var p, m := PositionsAt(predict, a, start, n), Run(predict, start, n).machine;
            Refines(a, m, p.wb, p.mem) && FollowsTrace(a, p, m.latches)
  {
    hide FetchesSafely, Starts, Run, PositionsAt, Refines, Inv, StatsInv, FollowsTrace, PathInv;
    Reaches(predict, a, start, n);
    RunRefinesIsa(predict, a, start, n);
    FollowsTraceAtCuts(a, PositionsAt(predict, a, start, n), Run(predict, start, n).machine);
  }

  lemma FollowsTraceAtCuts(a: Arch, p: Positions, m: Machine)
    requires Inv(a, p, m)
    ensures FollowsTrace(a, p, m.latches)
  {
    hide Good, Live, After, EventAt, FetchWord, Decoded, CpuMatches, LoadUseFree, MemWbHolds, ExMemHolds, IdExHolds,
         Mispredicted;
    var l := m.latches;
    if p.mem == p.wb + 1 {
      MemWbIsEntry(After(a, p.wb), l.memWb);
    }
    if p.ex == p.mem + 1 {
      ExMemIsEntry(After(a, p.mem), l.exMem);
    }
    if Good(a, p.ex) && p.id == p.ex + 1 {
      IdExIsEntry(After(a, p.ex), l.idEx, m.cpu.regs);
    }
  }

  lemma MemWbIsEntry(b: Arch, memWb: MemWb)
    requires MemWbHolds(memWb, b)
    ensures memWb.valid <==> !EventAt(b).Skip?
    ensures memWb.valid ==> memWb.pc == b.pc && memWb.instruction == FetchWord(b)
  {
    hide EventAt, DecodeInstruction, FetchWord, AccessThrows, Resolve, AluResult, ReadMemory, ReadReg;
    DecodedIsWellControlled(b);
  }

  lemma ExMemIsEntry(b: Arch, exMem: ExMem)
    requires ExMemHolds(exMem, b)
    ensures exMem.valid <==> !EventAt(b).Skip?
    ensures exMem.valid ==> exMem.pc == b.pc && exMem.instruction == FetchWord(b)
  {
    hide EventAt, DecodeInstruction, FetchWord, Resolve, AluResult, ReadReg;
    DecodedIsWellControlled(b);
  }

  lemma IdExIsEntry(b: Arch, idEx: IdEx, regs: RegFile)
    requires IdExHolds(idEx, b, regs)
    ensures idEx.valid <==> !EventAt(b).Skip?
    ensures idEx.valid ==> idEx.pc == b.pc && idEx.instruction == FetchWord(b)
  {
    hide EventAt, DecodeInstruction, FetchWord, ReadReg;
    DecodedIsWellControlled(b);
  }

  /** The cycle after a wrong prediction drops the wrong-path word and fetches the right entry, or nothing. */
  lemma WrongPathIsDropped(a: Arch, p: Positions, m: Machine, predict: Prediction)
    requires FetchFresh(a, p, m) && Inv(a, p, m) && !m.cpu.halted && Cycle(predict, m).Ticked?
    requires Good(a, p.id) && Mispredicted(a, p, m.latches.idEx)
    ensures var l := Cycle(predict, m).machine.latches;
            && l.idEx == EMPTY_ID_EX
            && (l.ifId.valid <==> !EventAt(After(a, p.id)).Stuck?)
            && (l.ifId.valid ==>
                  l.ifId.pc == After(a, p.id).pc && l.ifId.instruction == FetchWord(After(a, p.id)))
  {
    hide FetchFresh, Good, Live, After, EventAt, FetchWord, Decoded, CpuMatches, MemWbSlot, ExMemSlot, IdExHolds,
         BackHalfMatches, RunFrontHalf, RunBackHalf, AccessThrows, IsLoadUse, CarriesOver, WritebackStep;
    CyclePreserves(a, p, m, predict);
    BackHalfPreserves(a, p, m);
    NewIdEx(predict, m);
  }
}
