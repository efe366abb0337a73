/** The driver loop (main.cpp): cycles until the CPU halts, enough instructions have retired or the budget is spent. */
module Driver {
  import opened Words
  import opened Memory
  import opened BranchPredictor
  import R = PipelineRegisters
  import opened PipelineRegisters
  import opened CpuState
  import C = Cpu
  import opened Stages
  import opened Isa
  import opened Refinement
  import opened Accounting
  import opened MachineLaws
  import opened FetchWindow
  import opened Runs
  import opened Timing
  import opened AsFetched
  import opened PipelineMachine

  /** The condition of the driver loop. */
  predicate Continues(cpu: CpuState, maxCycles: nat, retireCount: Option<nat>) {
    && !cpu.halted
    && (retireCount.None? || cpu.stats.instructionCount < retireCount.value)
    && cpu.stats.clockCycles < maxCycles
  }

  /** `result` is where a run from `start` gets in `cycles` cycles, going on for as long as the driver does. */
  ghost predicate Drives(start: Machine, maxCycles: nat, retireCount: Option<nat>, cycles: nat, result: CycleResult) {
    && Run(CONFIGURED, start, cycles) == result
    && (forall k: nat | k < cycles :: StillGoing(start, maxCycles, retireCount, k))
    && (result.Ticked? ==> !Continues(result.machine.cpu, maxCycles, retireCount))
  }

  ghost predicate StillGoing(start: Machine, maxCycles: nat, retireCount: Option<nat>, k: nat) {
    var result := Run(CONFIGURED, start, k);
    result.Ticked? && Continues(result.machine.cpu, maxCycles, retireCount)
  }

  /** Runs the pipeline as the command line asks; `cycles` is the number of cycles that takes. */
  method Simulate(cpu: C.Cpu, pipeline: R.PipelineRegisters, maxCycles: nat, retireCount: Option<nat>)
    returns (ok: bool, ghost cycles: nat)
    requires cpu.Valid()
    modifies cpu, cpu.regs, cpu.memory, cpu.predictor.counters, pipeline
    ensures cpu.Valid()
    ensures var start := Machine(old(cpu.State()), old(pipeline.Current()));
            var final := Machine(cpu.State(), pipeline.Current());
            Drives(start, maxCycles, retireCount, cycles, if ok then Ticked(final) else Thrown(final))
    ensures old(cpu.stats.clockCycles) <= maxCycles ==> cpu.stats.clockCycles <= maxCycles
    ensures cpu.stats.clockCycles == old(cpu.stats.clockCycles) + (if ok then cycles else cycles - 1)
    ensures var retired := retireCount.Some? && cpu.stats.instructionCount >= retireCount.value;
            ok ==> cpu.halted || retired || cpu.stats.clockCycles >= maxCycles
  {
    hide Cycle, Run;
    ghost var start := Machine(cpu.State(), pipeline.Current());
    cycles := 0;
    RunOfNothing(start);
    while
      && !cpu.halted
      && (retireCount.None? || cpu.stats.instructionCount < retireCount.value)
      && cpu.stats.clockCycles < maxCycles
      invariant cpu.Valid()
      invariant cpu.stats.clockCycles == old(cpu.stats.clockCycles) + cycles
      invariant old(cpu.stats.clockCycles) <= maxCycles ==> cpu.stats.clockCycles <= maxCycles
      invariant Run(CONFIGURED, start, cycles) == Ticked(Machine(cpu.State(), pipeline.Current()))
      invariant forall k: nat | k < cycles :: StillGoing(start, maxCycles, retireCount, k)
      decreases maxCycles - cpu.stats.clockCycles
    {
      assert StillGoing(start, maxCycles, retireCount, cycles);
      OneMoreCycle(CONFIGURED, start, cycles);
      CycleTicks(CONFIGURED, Machine(cpu.State(), pipeline.Current()));
      ThrowKeepsStats(CONFIGURED, Machine(cpu.State(), pipeline.Current()));
      ok := RunPipelineCycle(cpu, pipeline);
      cycles := cycles + 1;
      if !ok {
        return;
      }
    }
    ok := true;
  }

  lemma RunOfNothing(start: Machine)
    ensures Run(CONFIGURED, start, 0) == Ticked(start)
  {
  }

  // What the driver is for

  /** With 2 * steps + 3 cycles to spend, a program that halts after `steps` instructions is simulated to its end. */
  lemma BudgetSuffices(a: Arch, start: Machine, maxCycles: nat, cycles: nat, result: CycleResult, steps: nat)
    requires FetchesSafely(CONFIGURED, a, start) && Starts(start, a)
    requires HaltsAfter(a, steps) && 2 * steps + 3 <= maxCycles
    requires Drives(start, maxCycles, None, cycles, result)
    ensures result.Ticked? && Finished(a, steps, result.machine) && TakesExactly(a, steps, result.machine)
  {
    hide FetchesSafely, Starts, HaltsAfter, Finished, TakesExactly, Run;
    var n := 2 * steps + 3;
    HaltsInTime(CONFIGURED, a, start, steps);
    assert Run(CONFIGURED, start, n).machine.cpu.halted by {
      FinishedIsHalted(a, steps, Run(CONFIGURED, start, n).machine);
    }
    if n < cycles {
      HaltedStops(start, maxCycles, n);
    } else if result.Thrown? || result.machine.cpu.halted {
      OverStays(CONFIGURED, start, cycles, n);
    } else {
      ClockCountsCycles(CONFIGURED, a, start, cycles);
    }
  }

  /**
   * The driver never spends more cycles than it has, and stops early for a reason only: from zeroed statistics, a
   * simulation that ends well, neither halted nor at its retire count, has taken exactly the budget.
   */
  lemma BudgetIsSpent(start: Machine, maxCycles: nat, retireCount: Option<nat>, cycles: nat, result: CycleResult)
    requires Drives(start, maxCycles, retireCount, cycles, result) && start.cpu.stats.clockCycles == 0
    ensures cycles <= maxCycles
    ensures result.machine.cpu.stats.clockCycles == if result.Ticked? then cycles else cycles - 1
    ensures result.Ticked? && !result.machine.cpu.halted
            && (retireCount.Some? ==> result.machine.cpu.stats.instructionCount < retireCount.value) ==>
              cycles == maxCycles
  {
    hide Run;
    ClockOfDriven(start, maxCycles, retireCount, cycles);
  }

  lemma {:induction false} ClockOfDriven(start: Machine, maxCycles: nat, retireCount: Option<nat>, cycles: nat)
    requires start.cpu.stats.clockCycles == 0
    requires forall k: nat | k < cycles :: StillGoing(start, maxCycles, retireCount, k)
    ensures var result := Run(CONFIGURED, start, cycles);
            && (result.Ticked? ==> result.machine.cpu.stats.clockCycles == cycles <= maxCycles)
            && (result.Thrown? ==> result.machine.cpu.stats.clockCycles + 1 == cycles <= maxCycles)
  {
    hide Run, Cycle;
    if cycles == 0 {
      RunOfNothing(start);
    } else {
      ClockOfDriven(start, maxCycles, retireCount, cycles - 1);
      assert StillGoing(start, maxCycles, retireCount, cycles - 1);
      OneMoreCycle(CONFIGURED, start, cycles - 1);
      var before := Run(CONFIGURED, start, cycles - 1).machine;
      CycleTicks(CONFIGURED, before);
      ThrowKeepsStats(CONFIGURED, before);
    }
  }

  lemma HaltedStops(start: Machine, maxCycles: nat, n: nat)
    requires Run(CONFIGURED, start, n).machine.cpu.halted
    ensures !StillGoing(start, maxCycles, None, n)
  {
    hide Run;
  }

  lemma FinishedIsHalted(a: Arch, steps: nat, m: Machine)
    requires Finished(a, steps, m)
    ensures m.cpu.halted
  {
    hide HaltsAfter;
  }

  lemma {:induction false} RetiredSoFar(a: Arch, start: Machine, maxCycles: nat, target: nat, cycles: nat)
    requires Starts(start, a)
    requires forall k: nat | k < cycles :: StillGoing(start, maxCycles, Some(target), k)
    requires Run(CONFIGURED, start, cycles).Ticked?
    ensures Run(CONFIGURED, start, cycles).machine.cpu.stats.instructionCount <= target
  {
    hide Run, Cycle;
    if cycles == 0 {
      RunOfNothing(start);
    } else {
      assert StillGoing(start, maxCycles, Some(target), cycles - 1);
      OneMoreCycle(CONFIGURED, start, cycles - 1);
      CycleTicks(CONFIGURED, Run(CONFIGURED, start, cycles - 1).machine);
    }
  }

  /** `target` of the first `retired` entries of the trace retire, and the machine refines the ISA there. */
  ghost predicate HasRetired(a: Arch, retired: nat, accessed: nat, target: nat, m: Machine) {
    Count(RetiresIn(a), retired) == target && Refines(a, m, retired, accessed)
  }

  /**
   * Asked for `target` retired instructions, the driver stops with exactly so many, unless the CPU halts or the budget
   * is spent first. The registers are then the ISA's after just those; memory and the log are too, or are one entry
   * ahead, for MEM may have done the store of the next entry.
   */
  lemma RetireTargetIsExact(a: Arch, start: Machine, maxCycles: nat, target: nat, cycles: nat, result: CycleResult)
    requires FetchesSafely(CONFIGURED, a, start) && Starts(start, a)
    requires Drives(start, maxCycles, Some(target), cycles, result) && result.Ticked?
    ensures result.machine.cpu.stats.instructionCount <= target
    ensures result.machine.cpu.halted || result.machine.cpu.stats.clockCycles >= maxCycles
         || var p := PositionsAt(CONFIGURED, a, start, cycles); HasRetired(a, p.wb, p.mem, target, result.machine)
  {
    hide FetchesSafely, Starts, Run, PositionsAt;
    RetiredSoFar(a, start, maxCycles, target, cycles);
    RunRefinesIsa(CONFIGURED, a, start, cycles);
    hide Good, HaltsAt;
  }

  // From an image to its outcome

  /** The program in its first state: loaded into cleared memory, with its first instruction next. */
  function ProgramAt(memorySize: nat, program: seq<Byte>, baseAddress: Word): Arch
    requires InBounds(memorySize, baseAddress, |program|)
  {
    var cleared := AfterReset(seq(memorySize, _ => 0), AlwaysNotTaken);
    if program == [] then Arch(cleared.regs, cleared.memory, ZERO, [], InMemory)
    else Arch(cleared.regs, Splice(cleared.memory, Index(baseAddress), program), baseAddress, [], InMemory)
  }

  /** The first state, field by field: all registers zero, the image in zeroed memory, and nothing logged. */
  lemma ProgramStartsCleared(memorySize: nat, program: seq<Byte>, baseAddress: Word)
    requires InBounds(memorySize, baseAddress, |program|)
    ensures var a, base := ProgramAt(memorySize, program, baseAddress), baseAddress.bits as nat;
            && (forall r: bv5 :: ReadReg(a.regs, X(r)).bits == 0) && a.writes == [] && a.code.InMemory?
            && a.pc.bits == (if program == [] then 0 else baseAddress.bits)
            && |a.memory| == memorySize
            && forall i: nat | i < memorySize ::
                 a.memory[i] == if base <= i < base + |program| then program[i - base] else 0
  {
    ResetClears(seq(memorySize, _ => 0), AlwaysNotTaken);
  }

  lemma LoadedStarts(memorySize: nat, mode: BranchPredictorType, program: seq<Byte>, baseAddress: Word, cpu: CpuState)
    requires InBounds(memorySize, baseAddress, |program|)
    requires var reset := AfterReset(seq(memorySize, _ => 0), mode);
             cpu == if program == [] then reset
                    else reset.(memory := Splice(reset.memory, Index(baseAddress), program), pc := baseAddress)
    ensures Starts(Machine(cpu, EMPTY_LATCHES), ProgramAt(memorySize, program, baseAddress))
  {
  }

  /** If `a` halts within the budget, the simulation ends well, in its state and after exactly the cycles it takes. */
  ghost predicate EndsAs(a: Arch, maxCycles: nat, ok: bool, final: Machine) {
    forall steps: nat | HaltsAfter(a, steps) && 2 * steps + 3 <= maxCycles ::
      ok && Finished(a, steps, final) && TakesExactly(a, steps, final)
  }

  lemma SimulatedEndsAs(a: Arch, start: Machine, maxCycles: nat, cycles: nat, ok: bool, final: Machine)
    requires FetchesSafely(CONFIGURED, a, start) && Starts(start, a)
    requires Drives(start, maxCycles, None, cycles, if ok then Ticked(final) else Thrown(final))
    ensures EndsAs(a, maxCycles, ok, final)
  {
    hide FetchesSafely, Starts, HaltsAfter, Finished, TakesExactly, Drives;
    forall steps: nat | HaltsAfter(a, steps) && 2 * steps + 3 <= maxCycles
      ensures ok && Finished(a, steps, final) && TakesExactly(a, steps, final)
    {
      BudgetSuffices(a, start, maxCycles, cycles, if ok then Ticked(final) else Thrown(final), steps);
    }
  }

  lemma LoadedEndsAs(a: Arch, start: Machine, maxCycles: nat, cycles: nat, ok: bool, final: Machine)
    requires Starts(start, a)
    requires Drives(start, maxCycles, None, cycles, if ok then Ticked(final) else Thrown(final))
    ensures EndsAs(Sequential(a, start), maxCycles, ok, final)
    ensures FetchesAreFresh(a, RedirectsIn(a, start.cpu.mode, start.cpu.counters)) ==> EndsAs(a, maxCycles, ok, final)
  {
    hide FetchesAreFresh, NoStaleFetch, Starts, Sequential, Drives, EndsAs;
    FetchingIsSafe(a, start);
    SimulatedEndsAs(Sequential(a, start), start, maxCycles, cycles, ok, final);
    if FetchesAreFresh(a, RedirectsIn(a, start.cpu.mode, start.cpu.counters)) {
      SimulatedEndsAs(a, start, maxCycles, cycles, ok, final);
    }
  }

  /**
   * Loads a program and runs it, as the command-line program does. A program that does not fit is refused; one that
   * halts within the budget ends in the state of the machine that executes what is fetched, after exactly the cycles
   * its trace accounts for. If the program is fetched fresh, that machine is the ISA.
   */
  method RunProgram(memorySize: nat, mode: BranchPredictorType, program: seq<Byte>, baseAddress: Word, maxCycles: nat)
    returns (ok: bool, cpu: C.Cpu, pipeline: R.PipelineRegisters)
    ensures cpu.Valid()
    ensures program != [] && baseAddress.bits as nat + |program| > memorySize ==> !ok
    ensures cpu.stats.clockCycles <= maxCycles && (ok ==> cpu.halted || cpu.stats.clockCycles == maxCycles)
    ensures InBounds(memorySize, baseAddress, |program|) ==>
              var a, final := ProgramAt(memorySize, program, baseAddress), Machine(cpu.State(), pipeline.Current());
              && EndsAs(FetchingMachine(a, mode, INITIAL_COUNTERS), maxCycles, ok, final)
              && (FetchesAreFresh(a, RedirectsIn(a, mode, INITIAL_COUNTERS)) ==> EndsAs(a, maxCycles, ok, final))
  {
    hide FetchesAreFresh, Starts, EndsAs, Drives, FetchingMachine;
    cpu := new C.Cpu(memorySize, mode);
    pipeline := new R.PipelineRegisters();
    ok := cpu.LoadProgram(program, baseAddress);
    if !ok {
      return;
    }
    ghost var start := Machine(cpu.State(), pipeline.Current());
    LoadedStarts(memorySize, mode, program, baseAddress, start.cpu);
    ghost var cycles: nat;
    ok, cycles := Simulate(cpu, pipeline, maxCycles, None);
    ghost var final := Machine(cpu.State(), pipeline.Current());
    LoadedEndsAs(ProgramAt(memorySize, program, baseAddress), start, maxCycles, cycles, ok, final);
  }
}
