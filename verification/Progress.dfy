/** Progress: every entry the reference machine reaches is fetched and leaves WB, and soon enough. */
module Progress {
  import opened BranchPredictor
  import opened Stages
  import opened Isa
  import opened Refinement
  import opened Accounting
  import opened MachineLaws
  import opened FetchWindow
  import opened Runs
  import opened Timing

  /** The reference machine reaches entry `k` and can fetch it. */
  ghost predicate Fetchable(a: Arch, k: nat) {
    Live(a, k) && !EventAt(After(a, k)).Stuck?
  }

  lemma UpToEntry(a: Arch, k: nat, p: Positions)
    requires Fetchable(a, k) && Consecutive(p) && p.next <= k
    ensures Live(a, p.next) && Good(a, p.ex) && Good(a, p.id) && Fetching(a, p)
  {
    hide EventAt, After;
    LivePrefix(a, p.next, k);
    LivePrefix(a, p.ex, k);
    LivePrefix(a, p.id, k);
    if p.next < k {
      LiveAt(a, k, p.next);
    }
  }

  /** After 2k + 1 cycles entry `k` has been fetched. */
  lemma EntryIsFetched(a: Arch, table: CounterTable, mode: BranchPredictorType, k: nat, p: Positions, m: Machine)
    requires Fetchable(a, k) && Reached(a, table, mode, p, m) && m.cpu.stats.clockCycles > 2 * k
    ensures p.next > k
  {
    hide Inv, Live, EventAt, After, PendingRedirect, CountersMatch, StallsMatch, Loads, Transfers, JumpsAway, Fetchable;
    CutsAreConsecutive(a, p, m);
    if p.next <= k {
      UpToEntry(a, k, p);
      DelaysAreCharged(a, table, mode, p, m);
      DelaysAreDistinct(a, p.id);
      LiveMeansNoHalt(a, p.next);
    }
  }

  /** After 2k + 2 cycles it has entered ID/EX: a load it was held for is charged with nothing else. */
  lemma EntryIsDecoded(a: Arch, table: CounterTable, mode: BranchPredictorType, k: nat, p: Positions, m: Machine)
    requires Fetchable(a, k) && Reached(a, table, mode, p, m) && m.cpu.stats.clockCycles > 2 * k + 1
    ensures p.id > k
  {
    hide Inv, Live, EventAt, After, PendingRedirect, CountersMatch, StallsMatch, Loads, Transfers, JumpsAway, Fetchable,
         Fetching, EntersOnTime, Drained;
    CutsAreConsecutive(a, p, m);
    if p.id <= k {
      CountingUpToEntry(a, k, p);
      DelaysAreCharged(a, table, mode, p, m);
      DelaysAreDistinct(a, p.id);
    }
  }

  lemma CountingUpToEntry(a: Arch, k: nat, p: Positions)
    requires Fetchable(a, k) && Consecutive(p) && p.id <= k
    ensures Good(a, p.ex) && Good(a, p.id) && Counting(a, p) && Drained(a, p) == 0
  {
    hide EventAt, After;
    LivePrefix(a, p.id, k);
    LivePrefix(a, p.ex, k);
    if p.next <= k {
      UpToEntry(a, k, p);
      LiveMeansNoHalt(a, p.next);
    } else {
      NothingDrained(a, p);
    }
  }

  /** From ID/EX on, an entry moves on in every cycle. */
  lemma EntryMovesOn(a: Arch, k: nat, p: Positions, m: Machine)
    requires Consecutive(p)
    ensures var q := NextPositions(a, p, m);
            && (p.id > k ==> q.ex > k) && (p.ex > k ==> q.mem > k)
            && (p.mem > k ==> q.wb > k) && (p.wb > k ==> q.wb > k)
  {
    hide NextPositions;
    NextCuts(a, p, m);
  }

  /** A run that is over has retired everything live. */
  lemma OverMeansRetired(predict: Prediction, a: Arch, start: Machine, n: nat, count: nat)
    requires FetchesSafely(predict, a, start) && Starts(start, a) && Over(Run(predict, start, n)) && Live(a, count)
    ensures Run(predict, start, n).machine.cpu.stats.instructionCount >= Count(RetiresIn(a), count)
  {
    hide FetchesSafely, Starts, Run, Live, EventAt, After, StatsInv, Inv, Retires, Finished, TakesExactly, PathInv;
    Reaches(predict, a, start, n);
    var p, result := PositionsAt(predict, a, start, n), Run(predict, start, n);
    if result.Thrown? {
      FaultIsBeyond(a, p.mem, count);
      CountGrows(RetiresIn(a), count, p.mem);
    } else {
      HaltedRunIsFinished(predict, a, start, n);
      var steps: nat :| Finished(a, steps, result.machine);
      FinishedCount(a, steps, result.machine);
      WithinTrace(a, steps, count);
      CountGrows(RetiresIn(a), count, steps);
    }
  }

  lemma FinishedCount(a: Arch, steps: nat, m: Machine)
    requires Finished(a, steps, m)
    ensures HaltsAfter(a, steps) && m.cpu.stats.instructionCount == Count(RetiresIn(a), steps)
  {
    hide HaltsAfter, Retires;
  }

  lemma FaultIsBeyond(a: Arch, k: nat, count: nat)
    requires Live(a, k) && EventAt(After(a, k)).Fault? && Live(a, count)
    ensures count <= k
  {
    hide EventAt, After;
    if k < count {
      LiveAt(a, count, k);
    }
  }

  lemma StepOfRun(predict: Prediction, a: Arch, start: Machine, k: nat, n: nat)
    requires FetchesSafely(predict, a, start) && Starts(start, a) && !Over(Run(predict, start, n + 1))
    ensures !Over(Run(predict, start, n))
    ensures var p, q := PositionsAt(predict, a, start, n), PositionsAt(predict, a, start, n + 1);
            && (p.id > k ==> q.ex > k) && (p.ex > k ==> q.mem > k)
            && (p.mem > k ==> q.wb > k) && (p.wb > k ==> q.wb > k)
  {
    hide FetchesSafely, Starts, StatsInv, Inv, PathInv, Cycle, NextPositions, FaultsPrecisely;
    Reaches(predict, a, start, n);
    if !Over(Run(predict, start, n)) {
      var p, m := PositionsAt(predict, a, start, n), Run(predict, start, n).machine;
      CutsAreConsecutive(a, p, m);
      EntryMovesOn(a, k, p, m);
    }
  }

  /** Once in ID/EX, an entry leaves WB in three cycles. */
  lemma RetiresAfterDecode(predict: Prediction, a: Arch, start: Machine, k: nat, n: nat)
    requires FetchesSafely(predict, a, start) && Starts(start, a) && !Over(Run(predict, start, n + 3))
    requires PositionsAt(predict, a, start, n).id > k
    ensures PositionsAt(predict, a, start, n + 3).wb > k
  {
    hide FetchesSafely, Starts, Run, PositionsAt, Over;
    StepOfRun(predict, a, start, k, n + 2);
    StepOfRun(predict, a, start, k, n + 1);
    StepOfRun(predict, a, start, k, n);
  }

  /** After 2k + 1 cycles fetch has passed entry `k`, even if the run is over by then. */
  lemma FetchedByThen(predict: Prediction, a: Arch, start: Machine, k: nat)
    requires ReachedAt(predict, a, start, 2 * k + 1) && Starts(start, a) && Fetchable(a, k)
    ensures PositionsAt(predict, a, start, 2 * k + 1).next > k
  {
    hide Starts, Run, PositionsAt, Inv, StatsInv, Live, EventAt, After, PathInv;
    ClockCountsCycles(predict, a, start, 2 * k + 1);
    var p, result := PositionsAt(predict, a, start, 2 * k + 1), Run(predict, start, 2 * k + 1);
    if result.Thrown? {
      FaultIsBeyond(a, p.mem, k);
    } else if result.machine.cpu.halted {
      HaltedIsDrained(a, p, result.machine);
      WithinTrace(a, p.wb, k);
    } else {
      EntryIsFetched(a, start.cpu.counters, start.cpu.mode, k, p, result.machine);
    }
  }

  lemma DecodedByThen(predict: Prediction, a: Arch, start: Machine, k: nat)
    requires FetchesSafely(predict, a, start) && Starts(start, a) && Fetchable(a, k)
    requires !Over(Run(predict, start, 2 * k + 2))
    ensures PositionsAt(predict, a, start, 2 * k + 2).id > k
  {
    hide FetchesSafely, Starts, Run, PositionsAt, Reached, Fetchable, PathInv, FaultsPrecisely;
    Reaches(predict, a, start, 2 * k + 2);
    ClockCountsCycles(predict, a, start, 2 * k + 2);
    var p, m := PositionsAt(predict, a, start, 2 * k + 2), Run(predict, start, 2 * k + 2).machine;
    EntryIsDecoded(a, start.cpu.counters, start.cpu.mode, k, p, m);
  }

  /**
   * Progress, whether or not the program ever ends: of the first `count` entries of the trace, all that execute have
   * retired within 2 * count + 3 cycles.
   */
  lemma EntriesRetireInTime(predict: Prediction, a: Arch, start: Machine, count: nat)
    requires FetchesSafely(predict, a, start) && Starts(start, a) && Live(a, count)
    ensures var result, p := Run(predict, start, 2 * count + 3), PositionsAt(predict, a, start, 2 * count + 3);
            && result.machine.cpu.stats.instructionCount >= Count(RetiresIn(a), count)
            && (result.Ticked? && !result.machine.cpu.halted ==> p.wb >= count)
  {
    hide FetchesSafely, Starts, Live, Run, PositionsAt, Inv, StatsInv, Retires, PathInv, FaultsPrecisely, EventAt,
         After;
    var n := 2 * count + 3;
    var p, result := PositionsAt(predict, a, start, n), Run(predict, start, n);
    if Over(result) {
      OverMeansRetired(predict, a, start, n, count);
    } else {
      if count > 0 {
        var k := count - 1;
        LastIsFetchable(a, count);
        NotOverBefore(predict, start, 2 * k + 2, n);
        DecodedByThen(predict, a, start, k);
        RetiresAfterDecode(predict, a, start, k, 2 * k + 2);
      }
      Reaches(predict, a, start, n);
      RetiredAtCut(a, start.cpu.counters, start.cpu.mode, p, result.machine);
      CountGrows(RetiresIn(a), count, p.wb);
    }
  }

  lemma RetiredAtCut(a: Arch, table: CounterTable, mode: BranchPredictorType, p: Positions, m: Machine)
    requires Reached(a, table, mode, p, m)
    ensures m.cpu.stats.instructionCount == Count(RetiresIn(a), p.wb)
  {
    hide Inv, StallsMatch, CyclesMatch, Good, Fetching, Retires, Branches, Transfers, JumpsAway, TrainedWith;
  }

  lemma LastIsFetchable(a: Arch, count: nat)
    requires count > 0 && Live(a, count)
    ensures Fetchable(a, count - 1) && Live(a, count - 1)
  {
    hide EventAt, After;
    LivePrefix(a, count - 1, count);
    LiveAt(a, count, count - 1);
  }
}
