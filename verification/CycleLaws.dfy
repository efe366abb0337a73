/** What holds of single cycles and of the statistics at every moment of a run. */
module CycleLaws {
  import opened PipelineRegisters
  import opened Instruction
  import opened Forwarding
  import opened Hazard
  import opened Stages
  import opened Isa
  import opened LatchInvariants
  import opened Refinement
  import opened Accounting
  import opened MachineLaws
  import opened FetchWindow
  import opened Runs
  import opened Timing

  /** A load-use stall lasts one cycle: the bubble it puts into ID/EX cannot stall again. */
  lemma NoTwoStallsInARow(predict: Prediction, m: Machine)
    requires Cycle(predict, m).Ticked?
    requires var after := Cycle(predict, m).machine;
             Cycle(predict, after).Ticked?
    ensures var after := Cycle(predict, m).machine;
            var later := Cycle(predict, after).machine;
            var s0, s1, s2 := m.cpu.stats.stallCycles, after.cpu.stats.stallCycles, later.cpu.stats.stallCycles;
            s1 == s0 || (s1 == s0 + 1 && s2 == s1)
  {
    hide RunBackHalf, RunFrontHalf, WritebackStep, AccessThrows;
    var after := Cycle(predict, m).machine;
    TickMeansNoThrow(predict, m);
    TickMeansNoThrow(predict, after);
    CycleStats(predict, m);
    CycleStats(predict, after);
    NewIdEx(predict, m);
    StallIsLoadUse(m);
    StallIsLoadUse(after);
    hide Cycle, DecodeInstruction, IdExFrom, DependsOn, SourcesOf;
  }

  lemma StallIsLoadUse(m: Machine)
    requires !AccessThrows(|m.cpu.memory|, m.latches.exMem)
    ensures RunBackHalf(m.cpu, m.latches).stall ==> IsLoadUse(m.latches.ifId, m.latches.idEx)
  {
    hide AccessThrows, IsLoadUse, Forwarded, Resolve, WritebackStep, MemoryStep, ExecuteStep, MemWbFrom, ExMemFrom,
         Redirects;
  }

  /** Once a halt has left ID nothing younger enters ID/EX or IF/ID, and the program counter stays behind the halt. */
  lemma HaltIsABarrier(a: Arch, p: Positions, m: Machine, predict: Prediction)
    requires FetchFresh(a, p, m) && Inv(a, p, m) && !m.cpu.halted && Cycle(predict, m).Ticked?
    requires HaltInFlight(m.latches)
    ensures HaltsAfter(a, p.id)
    ensures var after := Cycle(predict, m).machine;
            && after.latches.idEx == EMPTY_ID_EX && after.latches.ifId == EMPTY_IF_ID
            && after.cpu.pc == m.cpu.pc == After(a, p.id).pc
  {
    hide FetchFresh, Live, EventAt, After, MemWbSlot, ExMemSlot, IdExHolds, IfIdHolds, LoadUseFree, CpuMatches,
         AccessThrows, WritebackStep, RunBackHalf, Decoded, BackHalfMatches, IsLoadUse, CarriesOver, HaltInFlight;
    TickMeansNoThrow(predict, m);
    ExecutingIsGood(a, p, m);
    FlightEndsTrace(a, p, m);
    BackHalfPreserves(a, p, m);
    NewIdEx(predict, m);
    if Mispredicted(a, p, m.latches.idEx) {
      MispredictedIsLive(a, p, m);
    }
  }

  lemma FlightEndsTrace(a: Arch, p: Positions, m: Machine)
    requires Inv(a, p, m) && Good(a, p.ex) && HaltInFlight(m.latches)
    ensures HaltsAfter(a, p.id) && Good(a, p.id) && !Live(a, p.id)
  {
    hide EventAt, After, MemWbHolds, ExMemHolds, IdExHolds, FetchSlot, LoadUseFree, CpuMatches;
    var l := m.latches;
    if Live(a, p.id) {
      NoHaltInFlight(a, p, m);
    } else if l.idEx.valid && l.idEx.control.halt {
      IdExHaltSignal(After(a, p.ex), l.idEx, m.cpu.regs);
    } else if l.exMem.valid && l.exMem.control.halt {
      ExMemHaltSignal(After(a, p.mem), l.exMem);
    } else {
      MemWbHaltSignal(After(a, p.wb), l.memWb);
    }
  }

  /** How many of the cycles of a run found nothing in MEM/WB to retire. */
  function Bubbles(predict: Prediction, start: Machine, n: nat): nat {
    if n == 0 then 0
    else
      var before := Run(predict, start, n - 1);
      var idle := before.Ticked? && !before.machine.cpu.halted && !before.machine.latches.memWb.valid;
      Bubbles(predict, start, n - 1) + (if idle then 1 else 0)
  }

  /** Every cycle either retires an instruction or lets a bubble out of the pipeline. */
  lemma {:induction false} SlotsAreConserved(predict: Prediction, a: Arch, start: Machine, n: nat)
    requires Starts(start, a) && Run(predict, start, n).Ticked?
    ensures var stats := Run(predict, start, n).machine.cpu.stats;
            stats.clockCycles == stats.instructionCount + Bubbles(predict, start, n)
  {
    hide Cycle, RunBackHalf, AccessThrows;
    if n > 0 {
      var before := Run(predict, start, n - 1);
      if before.Thrown? || before.machine.cpu.halted {
        SlotsAreConserved(predict, a, start, n - 1);
      } else {
        TickMeansNoThrow(predict, before.machine);
        CycleStats(predict, before.machine);
        SlotsAreConserved(predict, a, start, n - 1);
      }
    }
  }

  /** In any run: a halt that has left ID is where the trace ends, and the program counter is behind it. */
  lemma HaltEndsTrace(predict: Prediction, a: Arch, start: Machine, n: nat)
    requires FetchesSafely(predict, a, start) && Starts(start, a)
    requires Run(predict, start, n).Ticked? && Run(predict, start, n + 1).Ticked?
    requires var m := Run(predict, start, n).machine; !m.cpu.halted && HaltInFlight(m.latches)
    ensures var p, m := PositionsAt(predict, a, start, n), Run(predict, start, n).machine;
            HaltsAfter(a, p.id) && m.cpu.pc == After(a, p.id).pc
  {
    hide FetchesSafely, Starts, Cycle, HaltInFlight, HaltsAfter, Inv, StatsInv, PositionsAt, FetchFresh, PathInv;
    Reaches(predict, a, start, n);
    SafeIsFresh(predict, a, start, n);
    HaltIsABarrier(a, PositionsAt(predict, a, start, n), Run(predict, start, n).machine, predict);
  }

  /**
   * In any run: behind a mispredicted transfer in ID/EX, whatever IF/ID holds is dropped in the next cycle, and IF/ID
   * then holds the instruction that the ISA executes next, if it can be fetched. The cuts are those of the run, at
   * which the registers and memory are the ISA's and which the latches follow.
   */
  lemma WrongPathNeverExecutes(predict: Prediction, a: Arch, start: Machine, n: nat)
    requires FetchesSafely(predict, a, start) && Starts(start, a)
    requires Run(predict, start, n).Ticked? && Run(predict, start, n + 1).Ticked?
    requires !Run(predict, start, n).machine.cpu.halted
    ensures var p, m := PositionsAt(predict, a, start, n), Run(predict, start, n).machine;
            var l, after := m.latches, Run(predict, start, n + 1).machine.latches;
            && Refines(a, m, p.wb, p.mem) && FollowsTrace(a, p, l)
            && (Good(a, p.id) && Mispredicted(a, p, l.idEx) ==>
                  && after.idEx == EMPTY_ID_EX
                  && (after.ifId.valid <==> !EventAt(After(a, p.id)).Stuck?)
                  && (after.ifId.valid ==> after.ifId.pc == After(a, p.id).pc
                                           && after.ifId.instruction == FetchWord(After(a, p.id))))
  {
    hide FetchesSafely, Starts, Cycle, Inv, StatsInv, FollowsTrace, Good, Mispredicted, EventAt, FetchWord, After,
         PositionsAt, FetchFresh, PathInv, Refines;
    Reaches(predict, a, start, n);
    SafeIsFresh(predict, a, start, n);
    LatchesFollowTrace(predict, a, start, n);
    var p, m := PositionsAt(predict, a, start, n), Run(predict, start, n).machine;
    if Good(a, p.id) && Mispredicted(a, p, m.latches.idEx) {
      WrongPathIsDropped(a, p, m, predict);
    }
  }

  // Every slot has one cause

  /** What ID passes on in a cycle: an instruction, or a bubble for one of four reasons. */
  datatype Slot = Instruction | Flushed | Stalled | NothingFetched | NoInstruction

  function SlotOf(m: Machine): Slot
    requires !AccessThrows(|m.cpu.memory|, m.latches.exMem)
  {
    var back := RunBackHalf(m.cpu, m.latches);
    if back.flush then Flushed
    else if back.stall then Stalled
    else if !m.latches.ifId.valid then NothingFetched
    else if !DecodeInstruction(m.latches.ifId.instruction).IsValid() then NoInstruction
    else Instruction
  }

  /** How many of the first `n` cycles of a run gave ID/EX this kind of slot. */
  function Slots(predict: Prediction, start: Machine, slot: Slot, n: nat): nat {
    if n == 0 then 0
    else
      Slots(predict, start, slot, n - 1) +
      (if TicksAfter(predict, start, n - 1) && GivesSlot(Run(predict, start, n - 1).machine, slot) then 1 else 0)
  }

  predicate GivesSlot(m: Machine, slot: Slot) {
    !AccessThrows(|m.cpu.memory|, m.latches.exMem) && SlotOf(m) == slot
  }

  function InFlight(l: Latches): nat {
    (if l.idEx.valid then 1 else 0) + (if l.exMem.valid then 1 else 0) + (if l.memWb.valid then 1 else 0)
  }

  lemma CycleGivesSlot(predict: Prediction, m: Machine)
    requires Cycle(predict, m).Ticked?
    ensures var now, after := m.cpu.stats, Cycle(predict, m).machine;
            && after.cpu.stats.clockCycles == now.clockCycles + 1
            && after.cpu.stats.stallCycles == now.stallCycles + (if GivesSlot(m, Stalled) then 1 else 0)
            && after.cpu.stats.instructionCount + InFlight(after.latches)
               == now.instructionCount + InFlight(m.latches) + (if GivesSlot(m, Instruction) then 1 else 0)
  {
    hide RunBackHalf, RunFrontHalf, WritebackStep, AccessThrows;
    TickMeansNoThrow(predict, m);
    CycleStats(predict, m);
    NewIdEx(predict, m);
    StallAndFlushExclude(m);
    LatchesMoveOn(predict, m);
    IdExOfSlot(m.latches.ifId, RunBackHalf(m.cpu, m.latches));
    hide Cycle, DecodeInstruction, DecodeStep;
  }

  lemma StallAndFlushExclude(m: Machine)
    requires !AccessThrows(|m.cpu.memory|, m.latches.exMem)
    ensures var back := RunBackHalf(m.cpu, m.latches); !(back.flush && back.stall)
  {
    hide AccessThrows, IsLoadUse, Forwarded, Resolve, WritebackStep, MemoryStep, ExecuteStep, MemWbFrom, ExMemFrom;
  }

  lemma LatchesMoveOn(predict: Prediction, m: Machine)
    requires !AccessThrows(|m.cpu.memory|, m.latches.exMem)
    ensures var l := Cycle(predict, m).machine.latches;
            l.exMem.valid == m.latches.idEx.valid && l.memWb.valid == m.latches.exMem.valid
  {
    hide AccessThrows, IsLoadUse, Forwarded, Resolve, WritebackStep, MemoryStep, ExecuteStep, ReadMemory, AluResult,
         RunFrontHalf;
    FrontHalfFrame(predict, RunBackHalf(m.cpu, m.latches), m.latches);
  }

  lemma IdExOfSlot(ifId: IfId, back: BackHalf)
    ensures DecodeStep(ifId, back.cpu.regs, back.flush, back.stall).valid <==>
              !back.flush && !back.stall && ifId.valid && DecodeInstruction(ifId.instruction).IsValid()
  {
    hide DecodeInstruction;
  }

  /**
   * In every run, whatever program it has and however it goes, the cycles so far are the instructions that have entered
   * ID/EX, retired or in flight, and the bubbles, each from exactly one cause; the stalls are those the CPU counts.
   */
  lemma {:induction false} SlotsByCause(predict: Prediction, a: Arch, start: Machine, n: nat)
    requires Starts(start, a) && Run(predict, start, n).Ticked?
    ensures var m := Run(predict, start, n).machine;
            && m.cpu.stats.stallCycles == Slots(predict, start, Stalled, n)
            && m.cpu.stats.instructionCount + InFlight(m.latches) == Slots(predict, start, Instruction, n)
            && m.cpu.stats.clockCycles
               == m.cpu.stats.instructionCount + InFlight(m.latches) + Slots(predict, start, Flushed, n)
                  + Slots(predict, start, Stalled, n) + Slots(predict, start, NothingFetched, n)
                  + Slots(predict, start, NoInstruction, n)
  {
    hide Cycle, SlotOf, AccessThrows, DecodeInstruction;
    if n > 0 {
      SlotsByCause(predict, a, start, n - 1);
      var before := Run(predict, start, n - 1).machine;
      if TicksAfter(predict, start, n - 1) {
        CycleGivesSlot(predict, before);
        TickMeansNoThrow(predict, before);
      }
    }
  }

  /** Entry `i` is a word that is no instruction. */
  function SkipsIn(a: Arch): nat -> bool {
    (i: nat) => EventAt(After(a, i)).Skip?
  }

  lemma {:induction false} EntriesRetireOrSkip(a: Arch, n: nat)
    requires Live(a, n)
    ensures Count(RetiresIn(a), n) + Count(SkipsIn(a), n) == n
  {
    hide After, EventAt;
    if n > 0 {
      LivePrefix(a, n - 1, n);
      EntriesRetireOrSkip(a, n - 1);
      LiveAt(a, n, n - 1);
    }
  }

  // What the trace says of cycles and bubbles

  /** How many of the first `n` cycles of a run found nothing at the address to fetch from. */
  ghost function Waiting(predict: Prediction, a: Arch, start: Machine, n: nat): nat {
    if n == 0 then 0
    else
      Waiting(predict, a, start, n - 1) +
      (if TicksAfter(predict, start, n - 1)
          && Waits(a, PositionsAt(predict, a, start, n - 1), Run(predict, start, n - 1).machine) then 1 else 0)
  }

  lemma GoodNextBefore(a: Arch, p: Positions, m: Machine)
    requires Inv(a, p, m) && !AccessThrows(|m.cpu.memory|, m.latches.exMem) && Good(a, NextPositions(a, p, m).next)
    ensures Good(a, p.id) && Good(a, p.next)
  {
    hide Inv, Live, EventAt, After, Mispredicted, IsLoadUse, MispredictedInIfId, AccessThrows;
    var q := NextPositions(a, p, m);
    CutsAreConsecutive(a, p, m);
    ExecutingIsGood(a, p, m);
    if Good(a, p.id) && Mispredicted(a, p, m.latches.idEx) {
      MispredictedIsNoLoad(a, p, m);
    }
    hide Good;
    if p.id < q.next {
      GoodPrefix(a, p.id, q.next);
      LiveIsGood(a, p.id);
    }
    if p.next < q.next {
      GoodPrefix(a, p.next, q.next);
      LiveIsGood(a, p.next);
    }
  }

  lemma ClockInCycle(predict: Prediction, a: Arch, p: Positions, m: Machine)
    requires Inv(a, p, m) && !m.cpu.halted && Cycle(predict, m).Ticked? && Good(a, NextPositions(a, p, m).next)
    ensures Good(a, p.next)
    ensures Accounted(a, NextPositions(a, p, m), Cycle(predict, m).machine) + (if Waits(a, p, m) then 1 else 0)
         == Accounted(a, p, m) + 1
    ensures Cycle(predict, m).machine.cpu.stats.clockCycles == m.cpu.stats.clockCycles + 1
  {
    hide Inv, Good, Accounted, Waits, NextPositions, Cycle, AccessThrows;
    TickMeansNoThrow(predict, m);
    GoodNextBefore(a, p, m);
    CycleIsAccounted(a, p, m, predict);
    CycleStats(predict, m);
  }

  /** While no faulting entry has been fetched past, every cycle is accounted for by the trace or by waiting. */
  lemma {:induction false} ClockIsExplained(predict: Prediction, a: Arch, start: Machine, n: nat)
    requires FetchesSafely(predict, a, start) && Starts(start, a) && Run(predict, start, n).Ticked?
    requires Good(a, PositionsAt(predict, a, start, n).next)
    ensures var m := Run(predict, start, n).machine;
            m.cpu.stats.clockCycles
              == Accounted(a, PositionsAt(predict, a, start, n), m) + Waiting(predict, a, start, n)
  {
    hide FetchesSafely, Cycle, NextPositions, Inv, StatsInv, PathInv, FaultsPrecisely, Good, Waits;
    if n == 0 {
      NothingAccounted(a, start);
    } else {
      hide Starts, Accounted;
      Reaches(predict, a, start, n - 1);
      var before := Run(predict, start, n - 1).machine;
      if TicksAfter(predict, start, n - 1) {
        ClockInCycle(predict, a, PositionsAt(predict, a, start, n - 1), before);
      }
      ClockIsExplained(predict, a, start, n - 1);
    }
  }

  lemma NothingAccounted(a: Arch, start: Machine)
    requires Starts(start, a)
    ensures Accounted(a, Positions(0, 0, 0, 0, 0), start) == 0
  {
    hide EventAt, JumpsAway, Step;
  }

  /**
   * At every moment the statistics and the predictor table are functions of the trace and of how far it has got: the
   * retired count of WB's cut, the branch count and the training of EX's cut, the stalls of ID's cut and the cycles of
   * all cuts. Behind a faulting entry in ID/EX they are those with which it came there; `Faults` has the cycle after
   * that, in which it throws. Registers and latches follow at the same cuts.
   */
  lemma StatisticsAreExplained(predict: Prediction, a: Arch, start: Machine, n: nat)
    requires FetchesSafely(predict, a, start) && Starts(start, a) && Run(predict, start, n).Ticked?
    ensures var p, m := PositionsAt(predict, a, start, n), Run(predict, start, n).machine;
            && Refines(a, m, p.wb, p.mem) && FollowsTrace(a, p, m.latches)
            && CountersMatch(a, start.cpu.counters, p, m.cpu)
            && (Good(a, p.id) ==> StallsMatch(a, p, m.cpu))
            && (Counting(a, p) ==> CyclesMatch(a, p, m))
            && (Good(a, p.ex) && p.id == p.ex + 1 ==> EntersOnTime(a, p, m))
            && (Good(a, p.next) ==>
                  m.cpu.stats.clockCycles == Accounted(a, p, m) + Waiting(predict, a, start, n))
  {
    hide FetchesSafely, Starts, Run, FollowsTrace, CountersMatch, StallsMatch, CyclesMatch, Inv, PathInv, Refines,
         PositionsAt, Good, Accounted, Waiting, Counting, EntersOnTime;
    Reaches(predict, a, start, n);
    LatchesFollowTrace(predict, a, start, n);
    if Good(a, PositionsAt(predict, a, start, n).next) {
      ClockIsExplained(predict, a, start, n);
    }
  }

  lemma FlushInCycle(predict: Prediction, a: Arch, p: Positions, m: Machine)
    requires Inv(a, p, m) && !m.cpu.halted && Cycle(predict, m).Ticked?
    ensures Cycle(predict, m).machine.cpu.stats.branchMispredictions + Count(JumpsAwayIn(a), p.id) ==
            m.cpu.stats.branchMispredictions + Count(JumpsAwayIn(a), p.ex) + (if GivesSlot(m, Flushed) then 1 else 0)
  {
    hide Inv, Cycle, AccessThrows, RunBackHalf, JumpsAway, DecodeInstruction, BackHalfMatches, IsLoadUse, CarriesOver,
         Mispredicted, After;
    TickMeansNoThrow(predict, m);
    RedirectsAccounted(a, p, m, predict);
    BackHalfPreserves(a, p, m);
  }

  lemma NoFlushAtStart(predict: Prediction, a: Arch, start: Machine)
    requires Starts(start, a)
    ensures Run(predict, start, 0).machine.cpu.stats.branchMispredictions == 0
    ensures Count(JumpsAwayIn(a), PositionsAt(predict, a, start, 0).ex) == 0
  {
    hide JumpsAway;
  }

  lemma FlushStep(predict: Prediction, a: Arch, start: Machine, n: nat)
    requires FetchesSafely(predict, a, start) && Starts(start, a) && Run(predict, start, n + 1).Ticked?
    ensures Run(predict, start, n).Ticked?
    ensures var now, after := Run(predict, start, n).machine, Run(predict, start, n + 1).machine;
            after.cpu.stats.branchMispredictions + Count(JumpsAwayIn(a), PositionsAt(predict, a, start, n + 1).ex) ==
            now.cpu.stats.branchMispredictions + Count(JumpsAwayIn(a), PositionsAt(predict, a, start, n).ex)
            + (if TicksAfter(predict, start, n) && GivesSlot(now, Flushed) then 1 else 0)
  {
    hide FetchesSafely, Starts, Cycle, NextPositions, Inv, StatsInv, PathInv, FaultsPrecisely, GivesSlot, Count;
    Reaches(predict, a, start, n);
    if TicksAfter(predict, start, n) {
      var p, now := PositionsAt(predict, a, start, n), Run(predict, start, n).machine;
      FlushInCycle(predict, a, p, now);
      NextCuts(a, p, now);
    }
  }

  /** The flushes of a run are the mispredicted branches and the jumps away that EX has resolved. */
  lemma {:induction false} FlushesAreRedirects(predict: Prediction, a: Arch, start: Machine, n: nat)
    requires FetchesSafely(predict, a, start) && Starts(start, a) && Run(predict, start, n).Ticked?
    ensures Slots(predict, start, Flushed, n)
         == Run(predict, start, n).machine.cpu.stats.branchMispredictions
            + Count(JumpsAwayIn(a), PositionsAt(predict, a, start, n).ex)
  {
    hide FetchesSafely, Starts, Count, PositionsAt, Run, GivesSlot, TicksAfter;
    if n == 0 {
      NoFlushAtStart(predict, a, start);
    } else {
      FlushStep(predict, a, start, n - 1);
      FlushesAreRedirects(predict, a, start, n - 1);
    }
  }

  /** The same up to the end of a trace that halts: the halt retires. */
  lemma GoodEntriesRetireOrSkip(a: Arch, n: nat)
    requires Good(a, n)
    ensures Count(RetiresIn(a), n) + Count(SkipsIn(a), n) == n
  {
    hide Live, After, EventAt;
    if Live(a, n) {
      EntriesRetireOrSkip(a, n);
    } else {
      EntriesRetireOrSkip(a, n - 1);
    }
  }

  /**
   * At every moment of a run, while no faulting entry has been fetched past, the bubbles that have left the pipeline
   * have these causes: entries still in flight, load-use stalls, mispredicted branches and jumps away, whether resolved
   * or still in ID/EX, words that are no instruction, fetches that found nothing, and the drain behind a halt.
   */
  lemma BubblesAreExplained(predict: Prediction, a: Arch, start: Machine, n: nat)
    requires FetchesSafely(predict, a, start) && Starts(start, a) && Run(predict, start, n).Ticked?
    requires Good(a, PositionsAt(predict, a, start, n).next)
    ensures var p, m := PositionsAt(predict, a, start, n), Run(predict, start, n).machine;
            && Refines(a, m, p.wb, p.mem) && Consecutive(p)
            && Bubbles(predict, start, n) ==
               (p.next - p.wb) + m.cpu.stats.stallCycles + m.cpu.stats.branchMispredictions
               + Count(JumpsAwayIn(a), p.ex) + PendingRedirect(a, p, m.latches.idEx)
               + Count(SkipsIn(a), p.wb) + Waiting(predict, a, start, n) + Drained(a, p)
  {
    hide FetchesSafely, Starts, Run, Bubbles, Inv, StatsInv, PositionsAt, Waiting, PathInv, EventAt, After, JumpsAway,
         PendingRedirect, Drained, Live, Good, HaltsAt, FaultsPrecisely;
    var p, m := PositionsAt(predict, a, start, n), Run(predict, start, n).machine;
    RunRefinesIsa(predict, a, start, n);
    ClockIsExplained(predict, a, start, n);
    SlotsAreConserved(predict, a, start, n);
    GoodAtWb(a, p);
    GoodEntriesRetireOrSkip(a, p.wb);
  }

  lemma GoodAtWb(a: Arch, p: Positions)
    requires Consecutive(p) && Good(a, p.next)
    ensures Good(a, p.wb)
  {
    hide Live, EventAt, After;
    if p.wb < p.next {
      GoodPrefix(a, p.wb, p.next);
    }
  }

  /** When a run has halted: four to fill the pipeline, one for each load-use pair, redirect and undecodable word. */
  lemma BubblesOfProgram(predict: Prediction, a: Arch, start: Machine, n: nat)
    requires FetchesSafely(predict, a, start) && Starts(start, a)
    requires Run(predict, start, n).Ticked? && Run(predict, start, n).machine.cpu.halted
    ensures exists steps: nat ::
              && HaltsAfter(a, steps)
              && Bubbles(predict, start, n) ==
                 4 + Count(LoadUsesIn(a), steps) + Run(predict, start, n).machine.cpu.stats.branchMispredictions
                 + Count(JumpsAwayIn(a), steps) + Count(SkipsIn(a), steps)
  {
    hide FetchesSafely, Starts, Run, Bubbles, Live, After, EventAt, JumpsAway, LoadUse;
    var m := Run(predict, start, n).machine;
    HaltedRunIsFinished(predict, a, start, n);
    var steps: nat :| Finished(a, steps, m) && TakesExactly(a, steps, m);
    SlotsAreConserved(predict, a, start, n);
    EntriesRetireOrSkip(a, steps - 1);
  }
}
