/** How long a run takes, when it ends, and what does not depend on the predictor. */
module Timing {
  import opened Words
  import opened BranchPredictor
  import opened PipelineRegisters
  import opened CpuState
  import opened Hazard
  import opened Stages
  import opened Isa
  import opened LatchInvariants
  import opened Refinement
  import opened Accounting
  import opened MachineLaws
  import opened Runs

  /** The machine a run halts with, `steps` being the length of the trace: nothing in it depends on the predictor. */
  ghost predicate Finished(a: Arch, steps: nat, m: Machine) {
    && HaltsAfter(a, steps)
    && m.latches == EMPTY_LATCHES
    && m.cpu.halted
    && m.cpu.regs == After(a, steps).regs
    && m.cpu.memory == After(a, steps).memory
    && m.cpu.writes == After(a, steps).writes
    && m.cpu.pc == After(a, steps).pc == PlusFour(After(a, steps - 1).pc)
    && m.cpu.stats.instructionCount == Count(RetiresIn(a), steps)
    && m.cpu.stats.stallCycles == Count(LoadUsesIn(a), steps)
    && m.cpu.stats.branchPredictions == Count(BranchesIn(a), steps)
  }

  /** Exact timing: four cycles to drain, one per entry, one per load-use pair and one per redirect. */
  ghost predicate TakesExactly(a: Arch, steps: nat, m: Machine) {
    m.cpu.stats.clockCycles ==
      steps + 4 + Count(LoadUsesIn(a), steps) + m.cpu.stats.branchMispredictions + Count(JumpsAwayIn(a), steps)
  }

  /** When the CPU has halted, every latch has drained and the cuts are all at the end of the trace. */
  lemma HaltedIsDrained(a: Arch, p: Positions, m: Machine)
    requires Inv(a, p, m) && m.cpu.halted
    ensures HaltsAfter(a, p.wb) && p == Positions(p.wb, p.wb, p.wb, p.wb, p.wb)
    ensures m.latches == EMPTY_LATCHES && m.cpu.pc == After(a, p.wb).pc
  {
    hide Live, After, EventAt, MemWbHolds, ExMemHolds, IdExHolds, IfIdHolds, LoadUseFree, Decoded;
    if Live(a, p.wb) {
      LiveMeansNoHalt(a, p.wb);
    }
  }

  lemma HaltMovesOn(b: Arch)
    requires EventAt(b).Halt?
    ensures Step(b).pc == PlusFour(b.pc)
  {
    hide EventAt;
  }

  lemma FinishedWhenHalted(a: Arch, table: CounterTable, mode: BranchPredictorType, p: Positions, m: Machine)
    requires Reached(a, table, mode, p, m) && m.cpu.halted
    ensures Finished(a, p.wb, m) && TakesExactly(a, p.wb, m)
    ensures m.cpu.counters == TrainedBy(a, mode, table, p.wb)
  {
    hide Inv, Live, EventAt, Retires, LoadUse, JumpsAway, Branches, Transfers, Step;
    HaltedIsDrained(a, p, m);
    HaltMovesOn(After(a, p.wb - 1));
    HaltedCpu(a, p, m);
    hide After, TrainedWith;
    if Live(a, p.wb) {
      LiveMeansNoHalt(a, p.wb);
    }
  }

  lemma HaltedCpu(a: Arch, p: Positions, m: Machine)
    requires Inv(a, p, m)
    ensures CpuMatches(a, p.wb, p.mem, m.cpu)
  {
    hide Live, After, EventAt, MemWbSlot, ExMemSlot, IdExSlot, FetchSlot, CpuMatches, Good;
  }

  // Termination

  /** Nothing goes past the halt, and nothing before it faults or gets stuck. */
  lemma WithinTrace(a: Arch, steps: nat, n: nat)
    requires HaltsAfter(a, steps)
    ensures n < steps ==> Live(a, n) && !EventAt(After(a, n)).Fault? && !EventAt(After(a, n)).Stuck?
    ensures n <= steps ==> Good(a, n)
    ensures Live(a, n) ==> n < steps
  {
    hide EventAt, After;
    if n < steps {
      LivePrefix(a, n, steps - 1);
      if n < steps - 1 {
        LiveAt(a, steps - 1, n);
      }
    } else if Live(a, n) {
      LiveAt(a, n, steps - 1);
    }
  }

  lemma CutsWithinTrace(a: Arch, steps: nat, p: Positions, m: Machine)
    requires HaltsAfter(a, steps) && Inv(a, p, m)
    ensures p.next <= steps && Good(a, p.id) && Fetching(a, p)
  {
    hide Live, After, EventAt, MemWbHolds, ExMemHolds, IdExHolds, IfIdHolds, LoadUseFree, CpuMatches, Mispredicted,
         HaltsAt;
    WithinTrace(a, steps, p.mem);
    WithinTrace(a, steps, p.ex);
    WithinTrace(a, steps, p.id);
    WithinTrace(a, steps, p.next);
    if p.mem > 0 {
      WithinTrace(a, steps, p.mem - 1);
    }
  }

  /** A load-use pair is charged to its load. */
  lemma {:induction false} PairsAreLoads(a: Arch, n: nat)
    ensures Count(LoadUsesIn(a), n + 1) <= Count(LoadsIn(a), n)
  {
    hide Loads, DependsOn, SourcesOf, After, EventAt, Decoded;
    if n > 0 {
      PairsAreLoads(a, n - 1);
    }
  }

  /** An entry is at most one of a load, a transfer and a halt. */
  lemma {:induction false} DelaysAreDistinct(a: Arch, n: nat)
    ensures Count(LoadsIn(a), n) + Count(TransfersIn(a), n) <= n
  {
    hide Loads, Transfers, After, Branches, JumpsAway;
    if n > 0 {
      DelaysAreDistinct(a, n - 1);
      TransferKinds(After(a, n - 1));
    }
  }

  lemma HaltDelaysNothing(a: Arch, steps: nat)
    requires HaltsAfter(a, steps)
    ensures Count(LoadsIn(a), steps) + Count(TransfersIn(a), steps) < steps
  {
    hide Live, EventAt, After, Decoded;
    DelaysAreDistinct(a, steps - 1);
  }

  lemma {:induction false} CountGrows(p: nat -> bool, m: nat, n: nat)
    requires m <= n
    ensures Count(p, m) <= Count(p, n)
  {
    if m < n {
      CountGrows(p, m, n - 1);
    }
  }

  /** Stalls and redirects so far, with the one still pending, are at most one for each load and each transfer. */
  lemma DelaysAreCharged(a: Arch, table: CounterTable, mode: BranchPredictorType, p: Positions, m: Machine)
    requires Reached(a, table, mode, p, m) && Good(a, p.ex) && Good(a, p.id)
    ensures m.cpu.stats.stallCycles + m.cpu.stats.branchMispredictions + Count(JumpsAwayIn(a), p.ex)
            + PendingRedirect(a, p, m.latches.idEx) <= Count(LoadsIn(a), p.id) + Count(TransfersIn(a), p.id)
  {
    hide Live, EventAt, After, Decoded, Inv, Mispredicted, LoadUse, Loads, Transfers, JumpsAway, Branches, Retires,
         CyclesMatch, Fetching, PendingRedirect, Good, TrainedWith;
    PendingIsTransfer(a, p, m);
    CutsAreConsecutive(a, p, m);
    PairsAreLoads(a, p.id);
    CountGrows(LoadUsesIn(a), p.id, p.id + 1);
  }

  lemma PendingIsTransfer(a: Arch, p: Positions, m: Machine)
    requires Inv(a, p, m) && Good(a, p.ex) && Good(a, p.id)
    ensures Count(TransfersIn(a), p.ex) + PendingRedirect(a, p, m.latches.idEx) <= Count(TransfersIn(a), p.id)
  {
    hide Inv, Live, EventAt, After, Decoded, Transfers, LoadUse, Mispredicted, Good;
    CutsAreConsecutive(a, p, m);
    CountGrows(TransfersIn(a), p.ex, p.id);
    if Mispredicted(a, p, m.latches.idEx) {
      MispredictedIsNoLoad(a, p, m);
    }
  }

  /** In a trace that halts they are fewer than its entries. */
  lemma DelaysAreBounded(a: Arch, table: CounterTable, mode: BranchPredictorType, steps: nat, p: Positions, m: Machine)
    requires HaltsAfter(a, steps) && Reached(a, table, mode, p, m)
    ensures m.cpu.stats.stallCycles + m.cpu.stats.branchMispredictions + Count(JumpsAwayIn(a), p.ex)
            + PendingRedirect(a, p, m.latches.idEx) < steps
  {
    hide Live, EventAt, After, Decoded, Inv, Mispredicted, LoadUse, Loads, Transfers, JumpsAway, StatsInv,
         PendingRedirect, HaltsAfter, Good;
    CutsWithinTrace(a, steps, p, m);
    ExGoodWithinTrace(a, steps, p, m);
    DelaysAreCharged(a, table, mode, p, m);
    CutsAreConsecutive(a, p, m);
    CountGrows(LoadsIn(a), p.id, steps);
    CountGrows(TransfersIn(a), p.id, steps);
    HaltDelaysNothing(a, steps);
  }

  lemma ExGoodWithinTrace(a: Arch, steps: nat, p: Positions, m: Machine)
    requires HaltsAfter(a, steps) && Inv(a, p, m)
    ensures Good(a, p.ex)
  {
    hide Live, After, EventAt, MemWbHolds, ExMemHolds, IdExHolds, IfIdHolds, LoadUseFree, CpuMatches, Mispredicted,
         HaltsAt;
    CutsWithinTrace(a, steps, p, m);
    WithinTrace(a, steps, p.ex);
  }

  /** Before it halts, a run has taken fewer than 2 * steps + 3 cycles. */
  lemma ClockIsBounded(a: Arch, table: CounterTable, mode: BranchPredictorType, steps: nat, p: Positions, m: Machine)
    requires HaltsAfter(a, steps) && Reached(a, table, mode, p, m) && !m.cpu.halted
    ensures m.cpu.stats.clockCycles < 2 * steps + 3
  {
    hide Live, EventAt, After, Inv, Mispredicted, LoadUse, Loads, Transfers, JumpsAway, Branches, Retires,
         CountersMatch, StallsMatch, Fetching, PendingRedirect, HaltsAfter, Good, HaltsAt;
    CutsWithinTrace(a, steps, p, m);
    DelaysAreBounded(a, table, mode, steps, p, m);
    NotRetiredHalt(a, p, m);
  }

  /** Every cycle of a run ticks the clock once. */
  lemma {:induction false} ClockCountsCycles(predict: Prediction, a: Arch, start: Machine, n: nat)
    requires Starts(start, a)
    ensures var result := Run(predict, start, n);
            result.Ticked? && !result.machine.cpu.halted ==> result.machine.cpu.stats.clockCycles == n
  {
    hide Cycle;
    if n > 0 {
      ClockCountsCycles(predict, a, start, n - 1);
      CycleTicks(predict, Run(predict, start, n - 1).machine);
    }
  }

  /**
   * If the reference machine halts, so does the pipeline, within 2 * steps + 3 cycles: with the ISA's state, and after
   * exactly as many cycles as the trace, its load-use pairs and the redirects account for.
   */
  lemma HaltsInTime(predict: Prediction, a: Arch, start: Machine, steps: nat)
    requires FetchesSafely(predict, a, start) && Starts(start, a) && HaltsAfter(a, steps)
    ensures var result := Run(predict, start, 2 * steps + 3);
            && result.Ticked? && Finished(a, steps, result.machine) && TakesExactly(a, steps, result.machine)
            && result.machine.cpu.stats.clockCycles <= 2 * steps + 3
  {
    hide FetchesSafely, Starts, Run, HaltsAfter, Reached, FaultsPrecisely, Finished, TakesExactly;
    var n := 2 * steps + 3;
    Reaches(predict, a, start, n);
    var p := PositionsAt(predict, a, start, n);
    var result := Run(predict, start, n);
    if result.Thrown? {
      NoFaultBeforeHalt(a, start.cpu.counters, p.mem, steps, result.machine.cpu);
    } else {
      if !result.machine.cpu.halted {
        ClockIsBounded(a, start.cpu.counters, start.cpu.mode, steps, p, result.machine);
        ClockCountsCycles(predict, a, start, n);
      }
      HaltedAtEnd(a, start.cpu.counters, start.cpu.mode, steps, p, result.machine);
    }
  }

  lemma NoFaultBeforeHalt(a: Arch, table: CounterTable, k: nat, steps: nat, cpu: CpuState)
    requires HaltsAfter(a, steps)
    ensures !FaultsPrecisely(a, table, k, cpu)
  {
    hide HaltsAfter, Live, EventAt, After, Retires, TrainedWith;
    WithinTrace(a, steps, k);
  }

  /** The end of a halted run is the halt of the trace, and the run was no longer than the delays allow. */
  lemma HaltedAtEnd(a: Arch, table: CounterTable, mode: BranchPredictorType, steps: nat, p: Positions, m: Machine)
    requires HaltsAfter(a, steps) && Reached(a, table, mode, p, m) && m.cpu.halted
    ensures Finished(a, steps, m) && TakesExactly(a, steps, m) && m.cpu.stats.clockCycles <= 2 * steps + 3
    ensures m.cpu.counters == TrainedBy(a, mode, table, steps)
  {
    hide Live, EventAt, After, HaltsAfter, Reached, LoadUse, JumpsAway, Retires, Branches, TrainedWith, Finished;
    FinishedWhenHalted(a, table, mode, p, m);
    HaltedSteps(a, table, mode, p, m);
    HaltsOnce(a, p.wb, steps);
    DelaysAreBounded(a, table, mode, steps, p, m);
    HaltedCounters(a, table, mode, p, m);
  }

  lemma HaltedSteps(a: Arch, table: CounterTable, mode: BranchPredictorType, p: Positions, m: Machine)
    requires Reached(a, table, mode, p, m) && m.cpu.halted
    ensures HaltsAfter(a, p.wb) && p.ex == p.wb
  {
    hide Inv, StatsInv, HaltsAfter;
    HaltedIsDrained(a, p, m);
  }

  lemma HaltedCounters(a: Arch, table: CounterTable, mode: BranchPredictorType, p: Positions, m: Machine)
    requires Reached(a, table, mode, p, m) && m.cpu.halted
    ensures m.cpu.stats.stallCycles == Count(LoadUsesIn(a), p.wb)
  {
    hide Inv, TakesExactly, LoadUse, After, EventAt, Live, HaltsAfter;
    FinishedWhenHalted(a, table, mode, p, m);
    hide StatsInv;
  }

  /** A halted pipeline means a halted reference machine, with the same end. */
  lemma HaltedRunIsFinished(predict: Prediction, a: Arch, start: Machine, n: nat)
    requires FetchesSafely(predict, a, start) && Starts(start, a)
    requires Run(predict, start, n).Ticked? && Run(predict, start, n).machine.cpu.halted
    ensures exists steps: nat ::
              && Finished(a, steps, Run(predict, start, n).machine)
              && TakesExactly(a, steps, Run(predict, start, n).machine)
  {
    hide FetchesSafely, Starts, Run, Reached, Finished, TakesExactly;
    Reaches(predict, a, start, n);
    var p := PositionsAt(predict, a, start, n);
    FinishedWhenHalted(a, start.cpu.counters, start.cpu.mode, p, Run(predict, start, n).machine);
  }

  /** The pipeline halts, eventually, exactly when the reference machine does. */
  lemma HaltsIffIsaHalts(predict: Prediction, a: Arch, start: Machine)
    requires FetchesSafely(predict, a, start) && Starts(start, a)
    ensures (exists n: nat :: Run(predict, start, n).Ticked? && Run(predict, start, n).machine.cpu.halted)
       <==> (exists steps: nat :: HaltsAfter(a, steps))
  {
    hide FetchesSafely, Starts, Run, HaltsAfter, TakesExactly;
    if n: nat :| Run(predict, start, n).Ticked? && Run(predict, start, n).machine.cpu.halted {
      HaltedRunIsFinished(predict, a, start, n);
      var steps: nat :| Finished(a, steps, Run(predict, start, n).machine);
      assert HaltsAfter(a, steps);
    }
    if steps: nat :| HaltsAfter(a, steps) {
      HaltsInTime(predict, a, start, steps);
      assert Run(predict, start, 2 * steps + 3).machine.cpu.halted;
    }
  }

  /** What a program computes, as opposed to how long that takes. */
  predicate SameOutcome(m: Machine, n: Machine) {
    && m.cpu.regs == n.cpu.regs && m.cpu.memory == n.cpu.memory && m.cpu.pc == n.cpu.pc
    && m.cpu.writes == n.cpu.writes
    && m.cpu.stats.instructionCount == n.cpu.stats.instructionCount
    && m.cpu.stats.stallCycles == n.cpu.stats.stallCycles
    && m.cpu.stats.branchPredictions == n.cpu.stats.branchPredictions
  }

  /**
   * Prediction is transparent: of two runs of one program under any two predictors, in any modes and with any tables,
   * one halts exactly when the other does, and then they agree on everything but cycles, mispredictions and tables.
   */
  lemma PredictionIsTransparent(p1: Prediction, p2: Prediction, a: Arch, s1: Machine, s2: Machine, n: nat)
    requires FetchesSafely(p1, a, s1) && FetchesSafely(p2, a, s2) && Starts(s1, a) && Starts(s2, a)
    requires Run(p1, s1, n).Ticked? && Run(p1, s1, n).machine.cpu.halted
    ensures exists k: nat ::
              && Run(p2, s2, k).Ticked? && Run(p2, s2, k).machine.cpu.halted
              && SameOutcome(Run(p1, s1, n).machine, Run(p2, s2, k).machine)
  {
    hide FetchesSafely, Starts, Run, TakesExactly, HaltsAfter;
    HaltedRunIsFinished(p1, a, s1, n);
    var steps: nat :| Finished(a, steps, Run(p1, s1, n).machine);
    HaltsInTime(p2, a, s2, steps);
    assert SameOutcome(Run(p1, s1, n).machine, Run(p2, s2, 2 * steps + 3).machine);
    hide Finished, SameOutcome;
  }
}
