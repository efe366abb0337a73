/**
 * How often the pipeline itself mispredicts. Fetch predicts a branch before the one just ahead of it has trained the
 * table, and yet it is never wrong more often than predicting and training one branch after another would be.
 */
module Mispredictions {
  import opened Words
  import opened Memory
  import opened BranchPredictor
  import opened PipelineRegisters
  import opened Instruction
  import opened CpuState
  import opened Forwarding
  import opened Hazard
  import opened Stages
  import opened Isa
  import opened Refinement
  import opened Accounting
  import opened MachineLaws
  import opened FetchWindow
  import opened Runs
  import opened Timing
  import opened PredictorLaws

  /** Where fetch goes on behind a branch it predicts to be taken or not. */
  function PredictedPath(pc: Word, immediate: Word, taken: bool): Word {
    if taken then Plus(pc, immediate) else PlusFour(pc)
  }

  /** IF/ID holds what the table, as it stands, predicts for it. */
  predicate IfIdPredicted(cpu: CpuState, ifId: IfId) {
    var d := DecodeInstruction(ifId.instruction);
    ifId.valid && d.IsValid() && d.control.branch ==>
      && ifId.predictedTaken == Predict(cpu.counters, cpu.mode, ifId.pc)
      && ifId.predictedNextPc == PredictedPath(ifId.pc, d.immediate, ifId.predictedTaken)
  }

  predicate IdExPredicted(idEx: IdEx) {
    idEx.valid && idEx.control.branch ==>
      && idEx.predictedNextPc == PredictedPath(idEx.pc, idEx.immediate, idEx.predictedTaken)
      && !idEx.control.memRead
  }

  predicate LatchesPredicted(m: Machine) {
    IfIdPredicted(m.cpu, m.latches.ifId) && IdExPredicted(m.latches.idEx)
  }

  predicate InBranch(idEx: IdEx) {
    idEx.valid && idEx.control.branch
  }

  function Resolved(l: Latches): Resolution {
    var operands := Forwarded(l.idEx, l.exMem, l.memWb);
    Resolve(l.idEx, operands.rs1Value, operands.rs2Value)
  }

  // One cycle

  lemma FetchPredicts(cpu: CpuState)
    ensures IfIdPredicted(cpu, FetchedAt(cpu, CONFIGURED))
  {
    hide DecodeInstruction, ReadU32, Predict, InBounds;
  }

  lemma PredictionIgnoresThePc(cpu: CpuState, other: CpuState, ifId: IfId)
    requires IfIdPredicted(cpu, ifId) && other.counters == cpu.counters && other.mode == cpu.mode
    ensures IfIdPredicted(other, ifId)
  {
    hide DecodeInstruction, Predict;
  }

  lemma DecodeHandsOn(cpu: CpuState, ifId: IfId, regs: RegFile, flush: bool, stall: bool)
    requires IfIdPredicted(cpu, ifId)
    ensures var idEx := DecodeStep(ifId, regs, flush, stall);
            && IdExPredicted(idEx)
            && (InBranch(idEx) ==> idEx.predictedTaken == Predict(cpu.counters, cpu.mode, idEx.pc))
  {
    hide DecodeInstruction, Predict, ClassOf, AluOpOf, ConditionOf, AccessWidthOf, ReadReg;
    DecodedControl(ifId.instruction);
  }

  lemma EmptyIsPredicted(cpu: CpuState)
    ensures IfIdPredicted(cpu, EMPTY_IF_ID)
  {
    hide DecodeInstruction, Predict;
  }

  lemma FrontHalfPredicts(back: BackHalf, latches: Latches)
    requires back.stall ==> IfIdPredicted(back.cpu, latches.ifId)
    ensures var after := RunFrontHalf(CONFIGURED, back, latches);
            IfIdPredicted(after.cpu, after.latches.ifId)
  {
    hide IfIdPredicted, DecodeStep, HaltInFlight, FetchedAt;
    EmptyIsPredicted(Tick(back.cpu));
    var fetched := FetchedAt(back.cpu, CONFIGURED);
    FetchPredicts(back.cpu);
    PredictionIgnoresThePc(back.cpu, Tick(FetchStep(back.cpu, fetched)), fetched);
    if back.stall {
      PredictionIgnoresThePc(back.cpu, Tick(back.cpu), latches.ifId);
    }
  }

  /** What EX does to the table, and when it holds ID back. */
  lemma BackHalfTrains(m: Machine)
    requires !AccessThrows(|m.cpu.memory|, m.latches.exMem)
    ensures var back := RunBackHalf(m.cpu, m.latches);
            && back.cpu.mode == m.cpu.mode
            && (!InBranch(m.latches.idEx) ==> back.cpu.counters == m.cpu.counters)
            && (back.stall ==> m.latches.idEx.valid && m.latches.idEx.control.memRead)
  {
    hide Forwarded, AluResult, EvaluateBranch, ClearLowBit, DecodeInstruction, DependsOn, SourcesOf, MemWbFrom,
         ExMemFrom, RegsAfterWriteback, MemoryAfterStore, WritesAfterStore, Trained, AccessThrows;
  }

  lemma LatchesStayPredicted(m: Machine)
    requires LatchesPredicted(m) && !AccessThrows(|m.cpu.memory|, m.latches.exMem)
    ensures var after := Cycle(CONFIGURED, m).machine;
            && LatchesPredicted(after)
            && (InBranch(after.latches.idEx) ==>
                  after.latches.idEx.predictedTaken == Predict(m.cpu.counters, m.cpu.mode, after.latches.idEx.pc))
  {
    hide IfIdPredicted, IdExPredicted, RunBackHalf, RunFrontHalf, AccessThrows, DecodeStep, Predict;
    var back := RunBackHalf(m.cpu, m.latches);
    BackHalfTrains(m);
    IdExBranchIsNoLoad(m.latches.idEx);
    if back.stall {
      PredictionIgnoresThePc(m.cpu, back.cpu, m.latches.ifId);
    }
    FrontHalfPredicts(back, m.latches);
    DecodeHandsOn(m.cpu, m.latches.ifId, back.cpu.regs, back.flush, back.stall);
    NewIdEx(CONFIGURED, m);
  }

  lemma IdExBranchIsNoLoad(idEx: IdEx)
    requires IdExPredicted(idEx)
    ensures InBranch(idEx) ==> !idEx.control.memRead
  {
  }

  /** A branch that redirects fetch went the other way than predicted. */
  lemma RedirectMeansWrongWay(m: Machine)
    requires LatchesPredicted(m) && !AccessThrows(|m.cpu.memory|, m.latches.exMem) && InBranch(m.latches.idEx)
    ensures Resolved(m.latches).Transfer?
    ensures RunBackHalf(m.cpu, m.latches).flush ==> m.latches.idEx.predictedTaken != Resolved(m.latches).taken
  {
    hide IfIdPredicted, Forwarded, AluResult, EvaluateBranch, IsLoadUse, MemWbFrom, ExMemFrom, WritebackStep,
         MemoryStep, ExecuteStep, AccessThrows;
  }

  // One cycle, in every mode and with every table

  function One(condition: bool): nat {
    if condition then 1 else 0
  }

  /** The branch in ID/EX was predicted otherwise than the table, trained since, would predict it. */
  predicate Stale(cpu: CpuState, idEx: IdEx) {
    InBranch(idEx) && idEx.predictedTaken != Predict(cpu.counters, cpu.mode, idEx.pc)
  }

  /** The branch in ID/EX goes otherwise than the table, trained with all branches before it, predicts. */
  predicate WrongNow(m: Machine) {
    && InBranch(m.latches.idEx) && Resolved(m.latches).Transfer?
    && Predict(m.cpu.counters, m.cpu.mode, m.latches.idEx.pc) != Resolved(m.latches).taken
  }

  /** Training changes a prediction only for an entry it was wrong about. */
  lemma TrainingTurnsTheWrong(counters: CounterTable, mode: BranchPredictorType, branchPc: Word, taken: bool,
                              other: Word)
    ensures Predict(Trained(counters, mode, branchPc, taken), mode, other) != Predict(counters, mode, other) ==>
              Predict(counters, mode, branchPc) != taken
  {
    hide IndexFor;
  }

  lemma NextIsPredictedFresh(m: Machine)
    requires LatchesPredicted(m) && !AccessThrows(|m.cpu.memory|, m.latches.exMem)
    ensures var after := Cycle(CONFIGURED, m).machine;
            Stale(after.cpu, after.latches.idEx) ==> WrongNow(m) && !RunBackHalf(m.cpu, m.latches).flush
  {
    hide LatchesPredicted, AccessThrows, Cycle, RunBackHalf, Resolve, Forwarded, Predict, Trained, DecodeStep;
    var l, after := m.latches, Cycle(CONFIGURED, m).machine;
    CycleBranchStats(CONFIGURED, m);
    LatchesStayPredicted(m);
    NewIdEx(CONFIGURED, m);
    if InBranch(l.idEx) {
      RedirectMeansWrongWay(m);
      TrainingTurnsTheWrong(m.cpu.counters, m.cpu.mode, l.idEx.pc, Resolved(l).taken, after.latches.idEx.pc);
    }
    if RunBackHalf(m.cpu, l).flush {
      NothingDecodedOnFlush(l.ifId, RunBackHalf(m.cpu, l).cpu.regs, RunBackHalf(m.cpu, l).stall);
    }
  }

  /**
   * In one cycle the mispredictions and the outdated branch in ID/EX, together, grow by at most one, and only when the
   * trained table is wrong: a branch that redirects fetch leaves no younger one behind.
   */
  lemma AccountGrows(m: Machine)
    requires LatchesPredicted(m) && !AccessThrows(|m.cpu.memory|, m.latches.exMem)
    ensures var after := Cycle(CONFIGURED, m).machine;
            after.cpu.stats.branchMispredictions + One(Stale(after.cpu, after.latches.idEx))
              <= m.cpu.stats.branchMispredictions + One(Stale(m.cpu, m.latches.idEx)) + One(WrongNow(m))
  {
    hide LatchesPredicted, AccessThrows, Cycle, RunBackHalf, Resolve, Forwarded, Predict, Trained;
    CycleBranchStats(CONFIGURED, m);
    NextIsPredictedFresh(m);
    if InBranch(m.latches.idEx) {
      RedirectMeansWrongWay(m);
    }
  }

  // Whole runs, whatever the program

  /** The branch that a cycle resolves, with the way it goes, if it resolves one. */
  function ResolvedNow(m: Machine): seq<Outcome> {
    if InBranch(m.latches.idEx) && Resolved(m.latches).Transfer? then
      [Outcome(m.latches.idEx.pc, Resolved(m.latches).taken)]
    else []
  }

  /** The branches that EX has resolved in the first `n` cycles of a run, with the ways they went. */
  function Own(start: Machine, n: nat): seq<Outcome> {
    if n == 0 then []
    else
      Own(start, n - 1)
      + if TicksAfter(CONFIGURED, start, n - 1) then ResolvedNow(Run(CONFIGURED, start, n - 1).machine) else []
  }

  /** Table and counters are those of predict-then-train on `stream`, or better. */
  predicate Tallied(table: CounterTable, m: Machine, stream: seq<Outcome>) {
    && m.cpu.counters == AfterStream(table, m.cpu.mode, stream)
    && m.cpu.stats.branchPredictions == |stream|
    && m.cpu.stats.branchMispredictions + One(Stale(m.cpu, m.latches.idEx)) <= Wrong(table, m.cpu.mode, stream)
  }

  lemma CycleTallies(table: CounterTable, m: Machine, stream: seq<Outcome>)
    requires LatchesPredicted(m) && !AccessThrows(|m.cpu.memory|, m.latches.exMem) && Tallied(table, m, stream)
    ensures Tallied(table, Cycle(CONFIGURED, m).machine, stream + ResolvedNow(m))
  {
    hide LatchesPredicted, AccessThrows, Cycle, RunBackHalf, Resolve, Forwarded, Predict, Trained, Stale, AfterStream,
         Wrong;
    CycleBranchStats(CONFIGURED, m);
    AccountGrows(m);
    if InBranch(m.latches.idEx) {
      RedirectMeansWrongWay(m);
      OneMoreBranch(table, m.cpu.mode, stream, ResolvedNow(m)[0]);
      assert stream + ResolvedNow(m) == stream + [ResolvedNow(m)[0]];
    } else {
      assert stream + ResolvedNow(m) == stream;
    }
  }

  /** A run begins with empty latches and zero statistics. */
  predicate Begins(start: Machine) {
    start.latches == EMPTY_LATCHES && start.cpu.stats == NO_STATS
  }

  lemma BeginsTallied(start: Machine)
    requires Begins(start)
    ensures LatchesPredicted(start) && Tallied(start.cpu.counters, start, [])
  {
    hide IndexFor, DecodeInstruction, Predict;
  }

  lemma ThrowTallies(table: CounterTable, m: Machine, stream: seq<Outcome>)
    requires Cycle(CONFIGURED, m).Thrown? && LatchesPredicted(m) && Tallied(table, m, stream)
    ensures LatchesPredicted(Cycle(CONFIGURED, m).machine) && Tallied(table, Cycle(CONFIGURED, m).machine, stream)
    ensures Cycle(CONFIGURED, m).machine.cpu.mode == m.cpu.mode
  {
    hide IndexFor, DecodeInstruction, Predict, AccessThrows, RunBackHalf, RunFrontHalf, RegsAfterWriteback, AfterStream,
         Wrong;
  }

  lemma {:induction false} RunTallies(start: Machine, n: nat)
    requires Begins(start)
    ensures var m := Run(CONFIGURED, start, n).machine;
            LatchesPredicted(m) && m.cpu.mode == start.cpu.mode && Tallied(start.cpu.counters, m, Own(start, n))
  {
    hide Begins, LatchesPredicted, Tallied, Cycle, ResolvedNow;
    if n == 0 {
      BeginsTallied(start);
    } else {
      RunTallies(start, n - 1);
      var before := Run(CONFIGURED, start, n - 1).machine;
      assert Own(start, n - 1) + [] == Own(start, n - 1);
      if TicksAfter(CONFIGURED, start, n - 1) {
        TickMeansNoThrow(CONFIGURED, before);
        LatchesStayPredicted(before);
        CycleTallies(start.cpu.counters, before, Own(start, n - 1));
        ModeStays(before);
      } else if !Over(Run(CONFIGURED, start, n - 1)) {
        ThrowTallies(start.cpu.counters, before, Own(start, n - 1));
      }
    }
  }

  lemma ModeStays(m: Machine)
    requires !AccessThrows(|m.cpu.memory|, m.latches.exMem)
    ensures Cycle(CONFIGURED, m).machine.cpu.mode == m.cpu.mode
  {
    hide Cycle, AccessThrows;
    CycleBranchStats(CONFIGURED, m);
  }

  /**
   * In every run, whatever its program does, in every mode and from any table: the table is trained with the branches
   * that EX has resolved, in order, they are all counted, and the pipeline has mispredicted at most as many of them as
   * predict-then-train gets wrong, one branch after another.
   */
  lemma NoWorseThanSequential(start: Machine, n: nat)
    requires Begins(start)
    ensures var cpu, stream := Run(CONFIGURED, start, n).machine.cpu, Own(start, n);
            && cpu.counters == AfterStream(start.cpu.counters, start.cpu.mode, stream)
            && cpu.stats.branchPredictions == |stream|
            && cpu.stats.branchMispredictions <= Wrong(start.cpu.counters, start.cpu.mode, stream)
  {
    hide Run, Own, Begins, LatchesPredicted, Wrong, AfterStream, Stale;
    RunTallies(start, n);
  }

  /** The bounds of the three modes on a stream of branches, from a reset table. */
  ghost predicate MispredictionsBounded(stats: ExecutionStats, mode: BranchPredictorType, stream: seq<Outcome>) {
    && stats.branchPredictions == |stream|
    && match mode
       case AlwaysNotTaken => stats.branchMispredictions <= Outcomes(stream, true)
       case AlwaysTaken => stats.branchMispredictions <= Outcomes(stream, false)
       case TwoBitSaturating =>
         && stats.branchMispredictions <= 2 * Outcomes(stream, true)
         && stats.branchMispredictions <= 2 * Outcomes(stream, false) + |Touched(stream)|
         && |Touched(stream)| <= 64
  }

  lemma BoundsOfModes(stats: ExecutionStats, mode: BranchPredictorType, stream: seq<Outcome>)
    requires stats.branchPredictions == |stream|
    requires stats.branchMispredictions <= Wrong(INITIAL_COUNTERS, mode, stream)
    ensures MispredictionsBounded(stats, mode, stream)
  {
    hide Wrong, Outcomes, Touched;
    StaticModesAreWrong(INITIAL_COUNTERS, stream);
    TwoBitIsCompetitive(stream);
  }

  /**
   * At every moment of a run that begins with a reset table, whatever its program does: in the static modes the
   * pipeline mispredicts at most the branches that went the other way, and with the two-bit table at most twice the
   * taken ones, and at most twice the others plus one for each table entry in use.
   */
  lemma MispredictionsAreBounded(start: Machine, n: nat)
    requires Begins(start) && start.cpu.counters == INITIAL_COUNTERS
    ensures MispredictionsBounded(Run(CONFIGURED, start, n).machine.cpu.stats, start.cpu.mode, Own(start, n))
  {
    hide Run, Own, Begins, Wrong, AfterStream, MispredictionsBounded;
    NoWorseThanSequential(start, n);
    BoundsOfModes(Run(CONFIGURED, start, n).machine.cpu.stats, start.cpu.mode, Own(start, n));
  }

  // The branches of the trace

  /** The branches among the first `n` entries of the trace, with the ways they went. */
  function BranchStream(a: Arch, n: nat): seq<Outcome> {
    if n == 0 then []
    else
      var b := After(a, n - 1);
      BranchStream(a, n - 1) + if Branches(b) then [Outcome(b.pc, BranchTaken(b))] else []
  }

  lemma ResolvesItsEntry(a: Arch, p: Positions, m: Machine)
    requires Inv(a, p, m) && !AccessThrows(|m.cpu.memory|, m.latches.exMem)
    ensures BranchStream(a, p.id) == BranchStream(a, p.ex) + ResolvedNow(m)
  {
    hide Inv, AccessThrows, Forwarded, Resolve, After, Branches, Transfers, BranchTaken;
    CutsAreConsecutive(a, p, m);
    ExecutedBranch(a, p, m);
    assert BranchStream(a, p.ex) + [] == BranchStream(a, p.ex);
  }

  lemma OwnGrows(a: Arch, start: Machine, n: nat)
    requires ReachedAt(CONFIGURED, a, start, n)
    requires Own(start, n) == BranchStream(a, PositionsAt(CONFIGURED, a, start, n).ex)
    ensures Own(start, n + 1) == BranchStream(a, PositionsAt(CONFIGURED, a, start, n + 1).ex)
  {
    var p, before := PositionsAt(CONFIGURED, a, start, n), Run(CONFIGURED, start, n).machine;
    hide Run, StatsInv, Inv, Cycle, NextPositions, PathInv, FaultsPrecisely, ResolvedNow, BubblesFollow, BranchStream;
    if TicksAfter(CONFIGURED, start, n) {
      TickMeansNoThrow(CONFIGURED, before);
      ResolvesItsEntry(a, p, before);
      NextCuts(a, p, before);
    } else {
      assert Own(start, n) + [] == Own(start, n);
    }
  }

  lemma NothingResolvedAtStart(a: Arch, start: Machine)
    ensures Own(start, 0) == BranchStream(a, PositionsAt(CONFIGURED, a, start, 0).ex) == []
  {
  }

  /** Of a program that is fetched safely, EX resolves exactly the branches of the trace, in order. */
  lemma {:induction false} OwnIsTrace(a: Arch, start: Machine, n: nat)
    requires FetchesSafely(CONFIGURED, a, start) && Starts(start, a)
    ensures Own(start, n) == BranchStream(a, PositionsAt(CONFIGURED, a, start, n).ex)
  {
    hide FetchesSafely, Starts, ReachedAt, Own, BranchStream, PositionsAt;
    if n == 0 {
      NothingResolvedAtStart(a, start);
    } else {
      OwnIsTrace(a, start, n - 1);
      Reaches(CONFIGURED, a, start, n - 1);
      OwnGrows(a, start, n - 1);
    }
  }

  lemma StartsBegins(a: Arch, start: Machine)
    requires Starts(start, a)
    ensures Begins(start)
  {
  }

  /** For a program that halts, the branches are all those of its trace. */
  lemma MispredictionsOfProgram(a: Arch, start: Machine, steps: nat)
    requires FetchesSafely(CONFIGURED, a, start) && Starts(start, a) && HaltsAfter(a, steps)
    ensures var result := Run(CONFIGURED, start, 2 * steps + 3);
            && result.Ticked? && result.machine.cpu.halted
            && result.machine.cpu.stats.branchMispredictions
               <= Wrong(start.cpu.counters, start.cpu.mode, BranchStream(a, steps))
            && (start.cpu.counters == INITIAL_COUNTERS ==>
                  MispredictionsBounded(result.machine.cpu.stats, start.cpu.mode, BranchStream(a, steps)))
  {
    hide FetchesSafely, Starts, Run, HaltsAfter, MispredictionsBounded, Reached, TakesExactly, PositionsAt, Wrong,
         BranchStream, Own, Begins, AfterStream, PathInv;
    var n := 2 * steps + 3;
    HaltsInTime(CONFIGURED, a, start, steps);
    Reaches(CONFIGURED, a, start, n);
    var p, m := PositionsAt(CONFIGURED, a, start, n), Run(CONFIGURED, start, n).machine;
    HaltedSteps(a, start.cpu.counters, start.cpu.mode, p, m);
    HaltsOnce(a, p.wb, steps);
    StartsBegins(a, start);
    OwnIsTrace(a, start, n);
    NoWorseThanSequential(start, n);
    if start.cpu.counters == INITIAL_COUNTERS {
      MispredictionsAreBounded(start, n);
    }
  }

  /**
   * What a prediction knows: the one in IF/ID was made from the table trained with every branch before the entry in
   * ID/EX. It differs from what full training would say only if that entry is a branch of the same table entry that
   * the table was wrong about.
   */
  lemma PredictionSeesTraining(a: Arch, start: Machine, n: nat)
    requires FetchesSafely(CONFIGURED, a, start) && Starts(start, a) && Run(CONFIGURED, start, n).Ticked?
    ensures var p, m := PositionsAt(CONFIGURED, a, start, n), Run(CONFIGURED, start, n).machine;
            var mode, table := start.cpu.mode, start.cpu.counters;
            && Refines(a, m, p.wb, p.mem) && FollowsTrace(a, p, m.latches) && Consecutive(p)
            && m.cpu.counters == TrainedBy(a, mode, table, p.ex) && m.cpu.mode == mode
            && IfIdPredicted(m.cpu, m.latches.ifId)
            && (Predict(TrainedBy(a, mode, table, p.id), mode, m.latches.ifId.pc)
                  != Predict(m.cpu.counters, mode, m.latches.ifId.pc) ==>
                && p.id == p.ex + 1 && Branches(After(a, p.ex))
                && IndexFor(After(a, p.ex).pc) == IndexFor(m.latches.ifId.pc)
                && Predict(m.cpu.counters, mode, After(a, p.ex).pc) != BranchTaken(After(a, p.ex)))
  {
    hide FetchesSafely, Starts, Run, FollowsTrace, Inv, IfIdPredicted, IdExPredicted, Begins, Tallied, StallsMatch,
         CyclesMatch, Good, Fetching, PathInv, PositionsAt, Refines, Predict, Retires, JumpsAway, Transfers, IndexFor,
         Branches, BranchTaken, TrainedBy;
    Reaches(CONFIGURED, a, start, n);
    StartsBegins(a, start);
    RunTallies(start, n);
    LatchesFollowTrace(CONFIGURED, a, start, n);
    var p, m := PositionsAt(CONFIGURED, a, start, n), Run(CONFIGURED, start, n).machine;
    CutsAreConsecutive(a, p, m);
    OneEntryOfTraining(a, start.cpu.mode, start.cpu.counters, p, m.latches.ifId.pc);
  }

  lemma OneEntryOfTraining(a: Arch, mode: BranchPredictorType, table: CounterTable, p: Positions, pc: Word)
    requires Consecutive(p)
    ensures Predict(TrainedBy(a, mode, table, p.id), mode, pc) != Predict(TrainedBy(a, mode, table, p.ex), mode, pc) ==>
              && p.id == p.ex + 1 && Branches(After(a, p.ex))
              && IndexFor(After(a, p.ex).pc) == IndexFor(pc)
              && Predict(TrainedBy(a, mode, table, p.ex), mode, After(a, p.ex).pc) != BranchTaken(After(a, p.ex))
  {
    hide IndexFor, After, Branches, BranchTaken;
    if p.id == p.ex + 1 && Branches(After(a, p.ex)) {
      var b, before := After(a, p.ex), TrainedBy(a, mode, table, p.ex);
      TrainingTurnsTheWrong(before, mode, b.pc, BranchTaken(b), pc);
    }
  }

  // Mispredictions and cycles, exactly

  /** Entry `i` is a branch that the pipeline mispredicts. */
  function MispredictsIn(a: Arch, mode: BranchPredictorType, table: CounterTable): nat -> bool {
    (i: nat) => Branches(After(a, i)) && RedirectsAt(a, mode, table, i)
  }

  lemma MispredictsInCycle(a: Arch, mode: BranchPredictorType, table: CounterTable, p: Positions, m: Machine)
    requires Inv(a, p, m) && PathInv(a, RedirectsIn(a, mode, table), p, m.latches) && !m.cpu.halted
    requires !AccessThrows(|m.cpu.memory|, m.latches.exMem)
    ensures Cycle(CONFIGURED, m).machine.cpu.stats.branchMispredictions
              + Count(MispredictsIn(a, mode, table), p.ex)
         == m.cpu.stats.branchMispredictions + Count(MispredictsIn(a, mode, table), p.id)
  {
    hide Inv, AccessThrows, BubblesFollow, MispredictedInIfId, Good, Forwarded, Resolve, After, Branches, Transfers,
         BranchTaken, Trained, Cycle, RunBackHalf, Mispredicted, BackHalfMatches, IsLoadUse, CarriesOver, RedirectsAt,
         Count;
    CutsAreConsecutive(a, p, m);
    if p.id == p.ex + 1 {
      CountedOne(MispredictsIn(a, mode, table), p.ex);
    }
    ExecutingIsGood(a, p, m);
    CycleBranchStats(CONFIGURED, m);
    BackHalfPreserves(a, p, m);
    ExecutedBranch(a, p, m);
  }

  lemma NoneMispredictedAtStart(a: Arch, start: Machine)
    requires Starts(start, a)
    ensures Run(CONFIGURED, start, 0).machine.cpu.stats.branchMispredictions == 0
    ensures PositionsAt(CONFIGURED, a, start, 0).ex == 0
  {
  }

  /** In every mode and from any table, what the pipeline mispredicts is determined by the trace. */
  lemma {:induction false} MispredictionsAreExact(a: Arch, start: Machine, n: nat)
    requires FetchesSafely(CONFIGURED, a, start) && Starts(start, a) && Run(CONFIGURED, start, n).Ticked?
    ensures Run(CONFIGURED, start, n).machine.cpu.stats.branchMispredictions
         == Count(MispredictsIn(a, start.cpu.mode, start.cpu.counters), PositionsAt(CONFIGURED, a, start, n).ex)
  {
    hide FetchesSafely, Starts, MispredictsIn, Count, Cycle, NextPositions, Inv, StatsInv, PathInv, FaultsPrecisely;
    if n == 0 {
      NoneMispredictedAtStart(a, start);
      NothingCounted(MispredictsIn(a, start.cpu.mode, start.cpu.counters));
    } else {
      MispredictionsAreExact(a, start, n - 1);
      Reaches(CONFIGURED, a, start, n - 1);
      var p, m := PositionsAt(CONFIGURED, a, start, n - 1), Run(CONFIGURED, start, n - 1).machine;
      if TicksAfter(CONFIGURED, start, n - 1) {
        TickMeansNoThrow(CONFIGURED, m);
        MispredictsInCycle(a, start.cpu.mode, start.cpu.counters, p, m);
        NextCuts(a, p, m);
      }
    }
  }

  lemma CountedOne(p: nat -> bool, n: nat)
    ensures Count(p, n + 1) == Count(p, n) + (if p(n) then 1 else 0)
  {
  }

  lemma NothingCounted(p: nat -> bool)
    ensures Count(p, 0) == 0
  {
  }

  /** So the number of cycles a program takes, in any mode and from any table, is a function of its trace. */
  lemma CyclesOfProgram(a: Arch, start: Machine, steps: nat)
    requires FetchesSafely(CONFIGURED, a, start) && Starts(start, a) && HaltsAfter(a, steps)
    ensures var result := Run(CONFIGURED, start, 2 * steps + 3);
            && result.Ticked? && result.machine.cpu.halted
            && result.machine.cpu.stats.clockCycles ==
               steps + 4 + Count(LoadUsesIn(a), steps) + Count(JumpsAwayIn(a), steps)
               + Count(MispredictsIn(a, start.cpu.mode, start.cpu.counters), steps)
  {
    hide FetchesSafely, Starts, Run, HaltsAfter, Reached, PositionsAt, PathInv, Count;
    var n := 2 * steps + 3;
    HaltsInTime(CONFIGURED, a, start, steps);
    Reaches(CONFIGURED, a, start, n);
    var p, m := PositionsAt(CONFIGURED, a, start, n), Run(CONFIGURED, start, n).machine;
    HaltedSteps(a, start.cpu.counters, start.cpu.mode, p, m);
    HaltsOnce(a, p.wb, steps);
    MispredictionsAreExact(a, start, n);
  }
}
