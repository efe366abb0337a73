/** Faulting accesses: the pipeline throws exactly when the reference machine faults, and soon enough. */
module Faults {
  import opened BranchPredictor
  import opened CpuState
  import opened Hazard
  import opened Forwarding
  import opened Stages
  import opened Isa
  import opened LatchInvariants
  import opened Refinement
  import opened Accounting
  import opened MachineLaws
  import opened FetchWindow
  import opened Runs
  import opened Timing
  import opened Progress

  /** Entry `k` is reached and its access is out of bounds. */
  ghost predicate FaultsAt(a: Arch, k: nat) {
    Live(a, k) && EventAt(After(a, k)).Fault?
  }

  lemma FaultsOnce(a: Arch, j: nat, k: nat)
    requires FaultsAt(a, j) && FaultsAt(a, k)
    ensures j == k
  {
    hide EventAt, After;
    if j < k {
      LiveAt(a, k, j);
    } else if k < j {
      LiveAt(a, j, k);
    }
  }

  /** While nothing has been thrown, MEM has not passed the faulting entry, and the CPU has not halted. */
  lemma BeforeFault(a: Arch, k: nat, p: Positions, m: Machine)
    requires FaultsAt(a, k) && Inv(a, p, m)
    ensures p.mem <= k && !m.cpu.halted && Consecutive(p)
    ensures p.id <= k ==> Live(a, p.id)
    ensures p.next <= k ==> Live(a, p.next)
  {
    hide EventAt, After, MemWbSlot, ExMemSlot, IdExSlot, FetchSlot;
    if p.mem > k {
      LiveAt(a, if Live(a, p.mem) then p.mem else p.mem - 1, k);
    }
  }

  /** The faulting entry is in EX/MEM: this cycle throws. */
  lemma ThrowsNow(a: Arch, k: nat, p: Positions, m: Machine, predict: Prediction)
    requires FaultsAt(a, k) && Inv(a, p, m) && p.ex > k
    ensures Cycle(predict, m).Thrown?
  {
    hide Live, EventAt, AccessThrows, ExMemHolds, RunBackHalf, RunFrontHalf, WritebackStep, MemWbSlot, IdExSlot,
         FetchSlot, Good, HaltsAt, After;
    BeforeFault(a, k, p, m);
    MemThrowsOnFault(After(a, k), m.latches.exMem);
  }

  lemma FaultIsFetchable(a: Arch, k: nat)
    requires FaultsAt(a, k)
    ensures Fetchable(a, k) && Live(a, k)
  {
    hide Live, EventAt, After;
  }

  lemma NeverHalts(predict: Prediction, a: Arch, start: Machine, k: nat, n: nat)
    requires FetchesSafely(predict, a, start) && Starts(start, a) && FaultsAt(a, k) && Run(predict, start, n).Ticked?
    ensures !Run(predict, start, n).machine.cpu.halted && PositionsAt(predict, a, start, n).mem <= k
  {
    hide FetchesSafely, Starts, FaultsAt, Inv, StatsInv, Run, PositionsAt, PathInv;
    Reaches(predict, a, start, n);
    BeforeFault(a, k, PositionsAt(predict, a, start, n), Run(predict, start, n).machine);
  }

  /** Once the faulting entry is in EX/MEM, the next cycle of the run throws. */
  lemma ThrowsNext(predict: Prediction, a: Arch, start: Machine, k: nat, n: nat)
    requires FetchesSafely(predict, a, start) && Starts(start, a) && FaultsAt(a, k)
    requires PositionsAt(predict, a, start, n).ex > k
    ensures Run(predict, start, n + 1).Thrown?
  {
    hide FetchesSafely, Starts, FaultsAt, Inv, StatsInv, Cycle, PositionsAt, PathInv;
    Reaches(predict, a, start, n);
    if Run(predict, start, n).Ticked? {
      NeverHalts(predict, a, start, k, n);
      ThrowsNow(a, k, PositionsAt(predict, a, start, n), Run(predict, start, n).machine, predict);
    }
  }

  lemma ThrowsByThen(predict: Prediction, a: Arch, start: Machine, k: nat)
    requires FetchesSafely(predict, a, start) && Starts(start, a) && FaultsAt(a, k)
    ensures Run(predict, start, 2 * k + 4).Thrown?
  {
    hide FetchesSafely, Starts, Run, FaultsAt, PositionsAt, Fetchable, Live;
    var n := 2 * k + 2;
    FaultIsFetchable(a, k);
    if Run(predict, start, n + 2).Ticked? {
      NeverHalts(predict, a, start, k, n + 2);
      NotOverBefore(predict, start, n, n + 2);
      NotOverBefore(predict, start, n + 1, n + 2);
      DecodedByThen(predict, a, start, k);
      StepOfRun(predict, a, start, k, n);
      ThrowsNext(predict, a, start, k, n + 1);
    }
  }

  lemma PreciseMeansFault(a: Arch, table: CounterTable, k: nat, cpu: CpuState)
    requires FaultsPrecisely(a, table, k, cpu)
    ensures FaultsAt(a, k)
  {
    hide Live, EventAt, After, Retires, TrainedWith;
  }

  // The cycle of the throw

  /** In the cycle before the throw the faulting entry was in ID/EX, and since then only the interlock has acted. */
  lemma FaultInMem(predict: Prediction, a: Arch, start: Machine, k: nat, n: nat)
    requires FetchesSafely(predict, a, start) && Starts(start, a) && FaultsAt(a, k) && Run(predict, start, n).Ticked?
    requires PositionsAt(predict, a, start, n).ex > k
    ensures n > 0 && Run(predict, start, n - 1).Ticked?
    ensures var stats, l := Run(predict, start, n).machine.cpu.stats, Run(predict, start, n - 1).machine.latches;
            && l.idEx.valid && l.idEx.pc == After(a, k).pc && l.idEx.instruction == FetchWord(After(a, k))
            && stats.clockCycles
               == k + 3 + Count(LoadUsesIn(a), k + 1) + stats.branchMispredictions + Count(JumpsAwayIn(a), k)
            && stats.stallCycles == Count(LoadUsesIn(a), k + 1) + (if IsLoadUse(l.ifId, l.idEx) then 1 else 0)
  {
    hide FetchesSafely, Starts, FaultsAt, Inv, CountersMatch, StallsMatch, CyclesMatch, Counting, PathInv, Cycle,
         NextPositions, LoadUse, JumpsAway, Count, FaultsPrecisely, FetchWord, IsLoadUse, Good;
    Reaches(predict, a, start, n - 1);
    NeverHalts(predict, a, start, k, n);
    NeverHalts(predict, a, start, k, n - 1);
    var p, m := PositionsAt(predict, a, start, n - 1), Run(predict, start, n - 1).machine;
    if TicksAfter(predict, start, n - 1) {
      NextCuts(a, p, m);
      CutsAreConsecutive(a, p, m);
      TickMeansNoThrow(predict, m);
      CycleStats(predict, m);
      FaultInEx(predict, a, k, p, m);
    }
  }

  /** A faulting entry in ID/EX is no transfer, so it neither redirects nor counts. */
  lemma FaultInEx(predict: Prediction, a: Arch, k: nat, p: Positions, m: Machine)
    requires FaultsAt(a, k) && Inv(a, p, m) && p.ex == k && p.id == k + 1 && !m.cpu.halted
    requires !AccessThrows(|m.cpu.memory|, m.latches.exMem)
    ensures Good(a, p.ex)
    ensures var l := m.latches;
            && l.idEx.valid && l.idEx.pc == After(a, k).pc && l.idEx.instruction == FetchWord(After(a, k))
            && RunBackHalf(m.cpu, l).stall == IsLoadUse(l.ifId, l.idEx)
            && Cycle(predict, m).machine.cpu.stats.branchMispredictions == m.cpu.stats.branchMispredictions
  {
    hide Live, After, MemWbSlot, ExMemSlot, FetchSlot, CpuMatches, LoadUseFree, IsLoadUse, Cycle, RunBackHalf, Resolve,
         Forwarded, AccessThrows, Decoded, BackHalfMatches, CarriesOver, FetchWord, BranchTaken, HaltsAt;
    IdExIsEntry(After(a, k), m.latches.idEx, m.cpu.regs);
    ExecutedBranch(a, p, m);
    CycleBranchStats(predict, m);
    BackHalfPreserves(a, p, m);
    MispredictedTransfers(a, p, m.latches.idEx);
  }

  /** The last cycle that ticked before a throw. */
  lemma {:induction false} LastTick(predict: Prediction, start: Machine, n: nat) returns (last: nat)
    requires Run(predict, start, n).Thrown?
    ensures last < n && Run(predict, start, last).Ticked? && !Run(predict, start, last).machine.cpu.halted
    ensures Run(predict, start, last + 1) == Run(predict, start, n)
  {
    hide Cycle;
    if Run(predict, start, n - 1).Thrown? {
      last := LastTick(predict, start, n - 1);
    } else {
      last := n - 1;
    }
  }

  /**
   * With the reference machine faulting at entry `k`, the run throws in this cycle: k + 4, and one more for each
   * load-use pair and redirect on the way. It has stalled once for each pair, and once more exactly if the word behind
   * the faulting entry was about to read what that entry loads.
   */
  ghost predicate ThrowsIn(predict: Prediction, a: Arch, start: Machine, k: nat, cycle: nat) {
    && 2 <= cycle <= 2 * k + 4
    && Run(predict, start, cycle - 1).Ticked? && Run(predict, start, cycle).Thrown?
    && var stats := Run(predict, start, cycle).machine.cpu.stats;
       var l := Run(predict, start, cycle - 2).machine.latches;
       && cycle == k + 4 + Count(LoadUsesIn(a), k + 1) + stats.branchMispredictions + Count(JumpsAwayIn(a), k)
       && l.idEx.valid && l.idEx.pc == After(a, k).pc && l.idEx.instruction == FetchWord(After(a, k))
       && stats.stallCycles == Count(LoadUsesIn(a), k + 1) + (if IsLoadUse(l.ifId, l.idEx) then 1 else 0)
  }

  /** If the reference machine faults, the cycle of the throw and the stalls until then are determined. */
  lemma ThrowsOnTime(predict: Prediction, a: Arch, start: Machine, k: nat)
    requires FetchesSafely(predict, a, start) && Starts(start, a) && FaultsAt(a, k)
    ensures exists cycle: nat :: ThrowsIn(predict, a, start, k, cycle)
  {
    hide FetchesSafely, Starts, FaultsAt, Cycle, PositionsAt, FaultsPrecisely, Reached, PathInv, IsLoadUse, FetchWord,
         Count, LoadUse, JumpsAway, NextPositions, Run, After;
    ThrowsByThen(predict, a, start, k);
    var last := LastTick(predict, start, 2 * k + 4);
    ThrownHere(predict, a, start, k, last);
    FaultInMem(predict, a, start, k, last);
    ClockCountsCycles(predict, a, start, last);
    ThrowKeepsStats(predict, Run(predict, start, last).machine);
    assert ThrowsIn(predict, a, start, k, last + 1);
  }

  lemma ThrownHere(predict: Prediction, a: Arch, start: Machine, k: nat, last: nat)
    requires FetchesSafely(predict, a, start) && Starts(start, a) && FaultsAt(a, k)
    requires !Over(Run(predict, start, last)) && Run(predict, start, last + 1).Thrown?
    ensures PositionsAt(predict, a, start, last).ex > k
    ensures Cycle(predict, Run(predict, start, last).machine) == Run(predict, start, last + 1)
  {
    hide FetchesSafely, Starts, FaultsAt, Cycle, FaultsPrecisely, Reached, PathInv, NextPositions, Run;
    OneMoreCycle(predict, start, last);
    Reaches(predict, a, start, last + 1);
    PreciseMeansFault(a, start.cpu.counters, PositionsAt(predict, a, start, last + 1).mem,
                      Run(predict, start, last + 1).machine.cpu);
    FaultsOnce(a, k, PositionsAt(predict, a, start, last + 1).mem);
  }

  /** Within that time it has thrown, and precisely at that entry. */
  lemma ThrowsInTime(predict: Prediction, a: Arch, start: Machine, k: nat)
    requires FetchesSafely(predict, a, start) && Starts(start, a) && FaultsAt(a, k)
    ensures var result := Run(predict, start, 2 * k + 4);
            && result.Thrown?
            && FaultsPrecisely(a, start.cpu.counters, k, result.machine.cpu)
  {
    hide FetchesSafely, Starts, Run, FaultsPrecisely, FaultsAt, PositionsAt;
    ThrowsByThen(predict, a, start, k);
    FaultsArePrecise(predict, a, start, 2 * k + 4);
    var r := PositionsAt(predict, a, start, 2 * k + 4);
    PreciseMeansFault(a, start.cpu.counters, r.mem, Run(predict, start, 2 * k + 4).machine.cpu);
    FaultsOnce(a, r.mem, k);
  }

  /** The pipeline throws, eventually, exactly when the reference machine faults. */
  lemma ThrowsIffIsaFaults(predict: Prediction, a: Arch, start: Machine)
    requires FetchesSafely(predict, a, start) && Starts(start, a)
    ensures (exists n: nat :: Run(predict, start, n).Thrown?) <==> (exists k: nat :: FaultsAt(a, k))
  {
    hide FetchesSafely, Starts, Run, FaultsAt, FaultsPrecisely, PositionsAt;
    if n: nat :| Run(predict, start, n).Thrown? {
      FaultsArePrecise(predict, a, start, n);
      var p := PositionsAt(predict, a, start, n);
      PreciseMeansFault(a, start.cpu.counters, p.mem, Run(predict, start, n).machine.cpu);
    }
    if k: nat :| FaultsAt(a, k) {
      ThrowsInTime(predict, a, start, k);
    }
  }
}
