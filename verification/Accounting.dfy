/**
 * The statistics of a run, explained by the trace alone: what the counters count, what the predictor has learnt, and
 * where every cycle went.
 */
module Accounting {
  import opened Words
  import opened Memory
  import opened BranchPredictor
  import opened PipelineRegisters
  import opened Instruction
  import opened CpuState
  import opened Forwarding
  import opened Hazard
  import opened Stages
  import opened Isa
  import opened Correspondence
  import opened LatchInvariants
  import opened Refinement

  /** How many of the numbers below `n` have property `p`. */
  function Count(p: nat -> bool, n: nat): (count: nat)
    ensures count <= n
  {
    if n == 0 then 0 else Count(p, n - 1) + (if p(n - 1) then 1 else 0)
  }

  predicate Retires(b: Arch) {
    EventAt(b).Retire? || EventAt(b).Halt?
  }

  predicate Branches(b: Arch) {
    EventAt(b).Retire? && Decoded(b).control.branch
  }

  predicate Transfers(b: Arch) {
    EventAt(b).Retire? && TransfersControl(Decoded(b))
  }

  /** A jump to anywhere but the next instruction: fetch never foresees it. */
  predicate JumpsAway(b: Arch) {
    Transfers(b) && !Decoded(b).control.branch && Step(b).pc != PlusFour(b.pc)
  }

  predicate Loads(b: Arch) {
    EventAt(b).Retire? && Decoded(b).control.memRead
  }

  /** `b` loads a register that the instruction at `next` reads. */
  predicate LoadUse(b: Arch, next: Arch) {
    && Loads(b) && Decoded(b).rd != X0
    && !EventAt(next).Stuck? && Decoded(next).IsValid() && DependsOn(SourcesOf(Decoded(next)), Decoded(b).rd)
  }

  function BranchTaken(b: Arch): bool {
    Taken(Decoded(b).kind, Rs1(b, Decoded(b)), Rs2(b, Decoded(b)))
  }

  function RetiresIn(a: Arch): nat -> bool {
    (i: nat) => Retires(After(a, i))
  }

  function BranchesIn(a: Arch): nat -> bool {
    (i: nat) => Branches(After(a, i))
  }

  function TransfersIn(a: Arch): nat -> bool {
    (i: nat) => Transfers(After(a, i))
  }

  function JumpsAwayIn(a: Arch): nat -> bool {
    (i: nat) => JumpsAway(After(a, i))
  }

  function LoadsIn(a: Arch): nat -> bool {
    (i: nat) => Loads(After(a, i))
  }

  /** Entry `i` reads the register that entry `i - 1` has just loaded. */
  function LoadUsesIn(a: Arch): nat -> bool {
    (i: nat) => i > 0 && LoadUse(After(a, i - 1), After(a, i))
  }

  function TrainedWith(table: CounterTable, mode: BranchPredictorType, b: Arch): CounterTable {
    if Branches(b) then Trained(table, mode, b.pc, BranchTaken(b)) else table
  }

  /** The table after it has been trained, in program order, with the branches among the first `n` entries. */
  function TrainedBy(a: Arch, mode: BranchPredictorType, table: CounterTable, n: nat): CounterTable {
    if n == 0 then table else TrainedWith(TrainedBy(a, mode, table, n - 1), mode, After(a, n - 1))
  }

  ghost function PendingRedirect(a: Arch, p: Positions, idEx: IdEx): nat {
    if Mispredicted(a, p, idEx) then 1 else 0
  }

  /** The entry in IF/ID has been held once for the load before it. */
  ghost predicate HeldForLoad(a: Arch, p: Positions) {
    p.ex == p.id && p.next == p.id + 1 && LoadUsesIn(a)(p.id)
  }

  function At(cut: nat, end: nat): nat {
    if cut == end then 1 else 0
  }

  /** How far the halt at the end of the trace has drained out of the pipeline. */
  ghost function Drained(a: Arch, p: Positions): nat {
    if HaltsAt(a, p.next) then At(p.id, p.next) + At(p.ex, p.next) + At(p.mem, p.next) + At(p.wb, p.next) else 0
  }

  /** The counters that the trace determines whatever has been fetched behind it. */
  ghost predicate CountersMatch(a: Arch, table: CounterTable, p: Positions, cpu: CpuState) {
    && cpu.stats.instructionCount == Count(RetiresIn(a), p.wb)
    && cpu.stats.branchPredictions == Count(BranchesIn(a), p.ex)
    && cpu.counters == TrainedBy(a, cpu.mode, table, p.ex)
    && cpu.stats.branchMispredictions + Count(JumpsAwayIn(a), p.ex) <= Count(TransfersIn(a), p.ex)
  }

  ghost predicate StallsMatch(a: Arch, p: Positions, cpu: CpuState) {
    cpu.stats.stallCycles == Count(LoadUsesIn(a), p.id) + (if HeldForLoad(a, p) then 1 else 0)
  }

  /** The cycles that fetched an entry, were lost to a load or a redirect, or drained the halt. */
  ghost function Accounted(a: Arch, p: Positions, m: Machine): nat {
    p.next + m.cpu.stats.stallCycles + m.cpu.stats.branchMispredictions + Count(JumpsAwayIn(a), p.ex)
    + PendingRedirect(a, p, m.latches.idEx) + Drained(a, p)
  }

  ghost predicate CyclesMatch(a: Arch, p: Positions, m: Machine) {
    m.cpu.stats.clockCycles == Accounted(a, p, m)
  }

  /** Fetch has not come to an address it cannot reach. */
  ghost predicate Fetching(a: Arch, p: Positions) {
    Good(a, p.next) && (Live(a, p.next) ==> !EventAt(After(a, p.next)).Stuck?)
  }

  /** Fetch goes on, or what it has fetched last is an entry of the trace, still in IF/ID. */
  ghost predicate Counting(a: Arch, p: Positions) {
    Fetching(a, p) || (p.next == p.id + 1 && Live(a, p.id))
  }

  /** The entry in ID/EX has come there in its cycle: one each for the entries up to it, and for what delayed them. */
  ghost predicate EntersOnTime(a: Arch, p: Positions, m: Machine) {
    && m.cpu.stats.stallCycles == Count(LoadUsesIn(a), p.id)
    && m.cpu.stats.clockCycles ==
      p.id + 1 + Count(LoadUsesIn(a), p.id) + m.cpu.stats.branchMispredictions + Count(JumpsAwayIn(a), p.ex)
  }

  ghost predicate StatsInv(a: Arch, table: CounterTable, p: Positions, m: Machine) {
    && CountersMatch(a, table, p, m.cpu)
    && (Good(a, p.id) ==> StallsMatch(a, p, m.cpu))
    && (Counting(a, p) ==> CyclesMatch(a, p, m))
    && (Good(a, p.ex) && p.id == p.ex + 1 ==> EntersOnTime(a, p, m))
  }

  /** What one cycle adds to the counters. */
  lemma CycleStats(predict: Prediction, m: Machine)
    requires !AccessThrows(|m.cpu.memory|, m.latches.exMem)
    ensures var back := RunBackHalf(m.cpu, m.latches);
            var was, now := m.cpu.stats, Cycle(predict, m).machine.cpu.stats;
            && now.clockCycles == was.clockCycles + 1
            && now.instructionCount == was.instructionCount + (if m.latches.memWb.valid then 1 else 0)
            && now.stallCycles == was.stallCycles + (if back.stall then 1 else 0)
  {
    hide Forwarded, Resolve, Redirects, IsLoadUse, HaltInFlight, DecodeStep, FetchedAt, MemWbFrom, ExMemFrom,
         RegsAfterWriteback, MemoryAfterStore, WritesAfterStore, Trained, AccessThrows;
  }

  /** What EX adds to the counters and to the predictor table. */
  lemma CycleBranchStats(predict: Prediction, m: Machine)
    requires !AccessThrows(|m.cpu.memory|, m.latches.exMem)
    ensures var operands := Forwarded(m.latches.idEx, m.latches.exMem, m.latches.memWb);
            var resolution := Resolve(m.latches.idEx, operands.rs1Value, operands.rs2Value);
            var flush := RunBackHalf(m.cpu, m.latches).flush;
            var branch := m.latches.idEx.valid && m.latches.idEx.control.branch;
            var was, now := m.cpu, Cycle(predict, m).machine.cpu;
            && now.mode == was.mode
            && now.stats.branchPredictions == was.stats.branchPredictions + (if branch then 1 else 0)
            && now.stats.branchMispredictions ==
               was.stats.branchMispredictions + (if branch && flush then 1 else 0)
            && now.counters ==
               if branch && resolution.Transfer? then
                 Trained(was.counters, was.mode, m.latches.idEx.pc, resolution.taken)
               else was.counters
  {
    hide Forwarded, AluResult, EvaluateBranch, ClearLowBit, IsLoadUse, HaltInFlight, DecodeStep, FetchedAt, MemWbFrom,
         ExMemFrom, RegsAfterWriteback, MemoryAfterStore, WritesAfterStore, Trained, AccessThrows;
  }

  lemma RetiredEntry(a: Arch, p: Positions, m: Machine)
    requires Inv(a, p, m)
    ensures m.latches.memWb.valid <==> p.mem == p.wb + 1 && Retires(After(a, p.wb))
  {
    hide Good, Live, EventAt, After, HaltsAt, MemWbHolds, ExMemSlot, IdExSlot, FetchSlot, CpuMatches;
    if p.mem == p.wb + 1 {
      MemWbEvents(After(a, p.wb), m.latches.memWb);
    }
  }

  lemma MemWbEvents(b: Arch, memWb: MemWb)
    requires MemWbHolds(memWb, b)
    ensures memWb.valid <==> Retires(b)
    ensures !EventAt(b).Stuck? && !EventAt(b).Fault?
  {
    hide EventAt, Decoded, InMemWb, AccessThrows, WellControlled;
    WbAgrees(b, memWb);
    MemWbNotStuck(b, memWb);
  }

  lemma MemWbNotStuck(b: Arch, memWb: MemWb)
    requires MemWbHolds(memWb, b)
    ensures !EventAt(b).Stuck? && !EventAt(b).Fault?
  {
    hide EventAt, Decoded, InExMem, MemWbFrom, AccessThrows;
  }

  lemma ExecutedBranch(a: Arch, p: Positions, m: Machine)
    requires Inv(a, p, m) && !AccessThrows(|m.cpu.memory|, m.latches.exMem)
    ensures m.latches.idEx.valid && m.latches.idEx.control.branch <==> p.id == p.ex + 1 && Branches(After(a, p.ex))
    ensures m.latches.idEx.valid && (m.latches.idEx.control.branch || m.latches.idEx.control.jump) <==>
              p.id == p.ex + 1 && Transfers(After(a, p.ex))
    ensures m.latches.idEx.valid && m.latches.idEx.control.branch ==>
              var operands := Forwarded(m.latches.idEx, m.latches.exMem, m.latches.memWb);
              var resolution := Resolve(m.latches.idEx, operands.rs1Value, operands.rs2Value);
              && m.latches.idEx.pc == After(a, p.ex).pc
              && resolution.Transfer? && resolution.taken == BranchTaken(After(a, p.ex))
  {
    hide Good, Live, EventAt, After, HaltsAt, MemWbSlot, ExMemSlot, IdExHolds, FetchSlot, CpuMatches, Forwarded,
         Resolve, Decoded, Rs1, Rs2, Taken, Redirects, AccessThrows, OperandsAgree;
    ExecutingIsGood(a, p, m);
    var idEx := m.latches.idEx;
    if p.id == p.ex + 1 {
      IdExEvents(After(a, p.ex), idEx, m.cpu.regs);
      if idEx.valid {
        OperandsCorrect(a, p, m);
        var operands := Forwarded(idEx, m.latches.exMem, m.latches.memWb);
        RedirectAgrees(After(a, p.ex), idEx, m.cpu.regs, operands.rs1Value, operands.rs2Value);
      }
    }
  }

  lemma IdExEvents(b: Arch, idEx: IdEx, regs: RegFile)
    requires IdExHolds(idEx, b, regs)
    ensures idEx.valid && idEx.control.branch <==> Branches(b)
    ensures idEx.valid && (idEx.control.branch || idEx.control.jump) <==> Transfers(b)
    ensures idEx.valid ==> idEx.pc == b.pc
  {
    hide DecodeInstruction, FetchWord, ClassOf, AccessInBounds, InBounds, WellControlled, ReadReg;
    DecodedIsWellControlled(b);
    EventsAndControl(b, Decoded(b));
    hide EventOf;
  }

  lemma NextCuts(a: Arch, p: Positions, m: Machine)
    ensures var q := NextPositions(a, p, m); q.wb == p.mem && q.mem == p.ex && q.ex == p.id
  {
    hide Good, Live, EventAt, After, Mispredicted, IsLoadUse, MispredictedInIfId;
  }

  /** Retired instructions, branches and training follow the trace through every cycle. */
  lemma CountersPreserved(a: Arch, table: CounterTable, p: Positions, m: Machine, predict: Prediction)
    requires Inv(a, p, m) && !AccessThrows(|m.cpu.memory|, m.latches.exMem)
    requires CountersMatch(a, table, p, m.cpu)
    ensures CountersMatch(a, table, NextPositions(a, p, m), Cycle(predict, m).machine.cpu)
  {
    hide Inv, AccessThrows, Forwarded, Resolve, After, Retires, Branches, Transfers, JumpsAway, BranchTaken, Trained,
         NextPositions, Cycle, RunBackHalf, Mispredicted;
    CutsAreConsecutive(a, p, m);
    NextCuts(a, p, m);
    RetiredEntry(a, p, m);
    ExecutedBranch(a, p, m);
    CycleStats(predict, m);
    CycleBranchStats(predict, m);
    if p.id == p.ex + 1 {
      TransferKinds(After(a, p.ex));
    }
  }

  lemma TransferKinds(b: Arch)
    ensures Branches(b) ==> Transfers(b) && !JumpsAway(b)
    ensures JumpsAway(b) ==> Transfers(b) && !Branches(b)
    ensures Loads(b) ==> !Transfers(b)
  {
    hide EventAt, DecodeInstruction, FetchWord, Step, PlusFour, ClassOf, AluOpOf, ConditionOf, AccessWidthOf;
    DecodedIsWellControlled(b);
  }

  /** A redirect is counted when it is resolved: as a misprediction if it is a branch, as a jump away otherwise. */
  lemma RedirectsAccounted(a: Arch, p: Positions, m: Machine, predict: Prediction)
    requires Inv(a, p, m) && !AccessThrows(|m.cpu.memory|, m.latches.exMem) && !m.cpu.halted
    ensures Cycle(predict, m).machine.cpu.stats.branchMispredictions + Count(JumpsAwayIn(a), p.id) ==
            m.cpu.stats.branchMispredictions + Count(JumpsAwayIn(a), p.ex) + PendingRedirect(a, p, m.latches.idEx)
  {
    hide Inv, AccessThrows, Forwarded, Resolve, Retires, Branches, Transfers, JumpsAway, BranchTaken, Trained,
         Cycle, RunBackHalf, Mispredicted, BackHalfMatches, EventAt, Step;
    CutsAreConsecutive(a, p, m);
    ExecutingIsGood(a, p, m);
    CycleBranchStats(predict, m);
    BackHalfPreserves(a, p, m);
    ExecutedBranch(a, p, m);
    MispredictedTransfers(a, p, m.latches.idEx);
    if p.id == p.ex + 1 {
      TransferKinds(After(a, p.ex));
      if !(m.latches.idEx.valid && m.latches.idEx.control.branch) {
        JumpsAreForeseenStraight(a, p, m);
      }
    }
  }

  /** A jump redirects exactly when it jumps away, for fetch went straight on. */
  lemma JumpsAreForeseenStraight(a: Arch, p: Positions, m: Machine)
    requires Inv(a, p, m) && Good(a, p.ex) && p.id == p.ex + 1
    requires !(m.latches.idEx.valid && m.latches.idEx.control.branch)
    ensures Mispredicted(a, p, m.latches.idEx) <==> JumpsAway(After(a, p.ex))
  {
    hide Good, Live, EventAt, HaltsAt, MemWbSlot, ExMemSlot, FetchSlot, CpuMatches, Decoded, Step, LoadUseFree,
         IdExHolds;
    IdExEvents(After(a, p.ex), m.latches.idEx, m.cpu.regs);
    if m.latches.idEx.valid {
      StraightPrediction(After(a, p.ex), m.latches.idEx, m.cpu.regs);
    }
    DecodedBranchesKind(After(a, p.ex), m.latches.idEx, m.cpu.regs);
  }

  lemma StraightPrediction(b: Arch, idEx: IdEx, regs: RegFile)
    requires IdExHolds(idEx, b, regs) && idEx.valid && !idEx.control.branch
    ensures idEx.predictedNextPc == PlusFour(b.pc)
  {
    hide EventAt, Decoded, PlusFour, ReadReg;
  }

  lemma DecodedBranchesKind(b: Arch, idEx: IdEx, regs: RegFile)
    requires IdExHolds(idEx, b, regs)
    ensures idEx.valid ==> idEx.control == Decoded(b).control
  {
    hide EventAt, Decoded, ReadReg;
  }

  // Stalls

  lemma GoodMeansNoFault(a: Arch, n: nat, i: nat)
    requires Good(a, n) && i < n
    ensures !EventAt(After(a, i)).Fault? && !EventAt(After(a, i)).Stuck?
  {
    hide EventAt, After;
    if i < n - 1 || Live(a, n) {
      LiveAt(a, if Live(a, n) then n else n - 1, i);
    }
  }

  /** The interlock sees a pair of entries exactly when the older loads a register the younger reads. */
  lemma PairDetected(b: Arch, next: Arch, idEx: IdEx, ifId: IfId, regs: RegFile)
    requires IdExHolds(idEx, b, regs) && IfIdHolds(ifId, next) && !EventAt(b).Fault?
    ensures IsLoadUse(ifId, idEx) <==> LoadUse(b, next)
  {
    hide FetchWord, ClassOf, AluOpOf, ConditionOf, AccessWidthOf, AccessInBounds, InBounds, WellControlled, ReadReg,
         DecodeInstruction, SourcesOf, DependsOn;
    DecodedIsWellControlled(b);
    EventsAndControl(b, Decoded(b));
    LoadsWrite(Decoded(b));
    hide EventOf;
  }

  lemma LoadsWrite(d: DecodedInstruction)
    ensures WellControlled(d) && d.control.memRead ==> d.control.regWrite && !d.control.halt
  {
    hide ClassOf, AluOpOf, ConditionOf, AccessWidthOf;
  }

  lemma LoadUseDetected(a: Arch, p: Positions, m: Machine)
    requires Inv(a, p, m) && Good(a, p.id) && p.id == p.ex + 1 && p.next == p.id + 1
    requires !Mispredicted(a, p, m.latches.idEx)
    ensures IsLoadUse(m.latches.ifId, m.latches.idEx) <==> LoadUsesIn(a)(p.id)
  {
    hide Live, EventAt, After, MemWbSlot, ExMemSlot, IdExHolds, IfIdHolds, CpuMatches, LoadUse, IsLoadUse, LoadUseFree,
         Mispredicted, HaltsAt;
    GoodPrefix(a, p.ex, p.id);
    GoodMeansNoFault(a, p.id, p.ex);
    PairDetected(After(a, p.ex), After(a, p.id), m.latches.idEx, m.latches.ifId, m.cpu.regs);
  }

  lemma NoStallWithoutPair(a: Arch, p: Positions, m: Machine)
    requires Inv(a, p, m) && Good(a, p.id) && !Mispredicted(a, p, m.latches.idEx)
    ensures IsLoadUse(m.latches.ifId, m.latches.idEx) ==> p.id == p.ex + 1 && p.next == p.id + 1
  {
    hide Live, EventAt, After, MemWbSlot, ExMemSlot, IdExHolds, IfIdHolds, CpuMatches, LoadUse, LoadUseFree,
         Mispredicted, HaltsAt, DecodeInstruction, DependsOn, SourcesOf;
    if p.id > p.ex {
    } else {
      assert Good(a, p.ex);
    }
  }

  lemma MispredictedIsNoLoad(a: Arch, p: Positions, m: Machine)
    requires Inv(a, p, m) && Good(a, p.ex) && Good(a, p.id) && Mispredicted(a, p, m.latches.idEx)
    ensures p.id == p.ex + 1 && Transfers(After(a, p.ex)) && !LoadUsesIn(a)(p.id) && p.next == p.id
  {
    hide Live, EventAt, MemWbSlot, ExMemSlot, IdExHolds, IfIdHolds, CpuMatches, LoadUseFree, Decoded, HaltsAt,
         Mispredicted, Loads, Transfers, Step, Good;
    MispredictedTransfers(a, p, m.latches.idEx);
    IdExInSlot(a, p, m);
    IdExEvents(After(a, p.ex), m.latches.idEx, m.cpu.regs);
    TransferKinds(After(a, p.ex));
  }

  /** An empty IF/ID on the path is either at the very start or at the end of everything. */
  lemma EmptyFetchSlot(a: Arch, p: Positions, m: Machine)
    requires Inv(a, p, m) && Good(a, p.id) && !Mispredicted(a, p, m.latches.idEx) && p.next == p.id
    ensures p.id == 0 || !Live(a, p.id) || EventAt(After(a, p.id)).Stuck?
  {
    hide Live, EventAt, After, MemWbSlot, ExMemSlot, IdExSlot, IfIdHolds, CpuMatches, HaltsAt, Mispredicted, Good;
  }

  lemma StallsPreserved(a: Arch, p: Positions, m: Machine, predict: Prediction)
    requires Inv(a, p, m) && !AccessThrows(|m.cpu.memory|, m.latches.exMem) && !m.cpu.halted
    requires Good(a, p.id) && StallsMatch(a, p, m.cpu)
    ensures StallsMatch(a, NextPositions(a, p, m), Cycle(predict, m).machine.cpu)
  {
    hide Inv, AccessThrows, Live, EventAt, Cycle, RunBackHalf, Mispredicted, BackHalfMatches, IsLoadUse, LoadUse,
         MispredictedInIfId, After, Good;
    CutsAreConsecutive(a, p, m);
    ExecutingIsGood(a, p, m);
    CycleStats(predict, m);
    BackHalfPreserves(a, p, m);
    if Mispredicted(a, p, m.latches.idEx) {
      MispredictedIsNoLoad(a, p, m);
    } else {
      NoStallWithoutPair(a, p, m);
      if p.id == p.ex + 1 && p.next == p.id + 1 {
        LoadUseDetected(a, p, m);
      }
      if p.next == p.id {
        EmptyFetchSlot(a, p, m);
      }
    }
  }

  // Cycles

  lemma NewIdEx(predict: Prediction, m: Machine)
    requires !AccessThrows(|m.cpu.memory|, m.latches.exMem)
    ensures var back := RunBackHalf(m.cpu, m.latches);
            Cycle(predict, m).machine.latches.idEx ==
            DecodeStep(m.latches.ifId, back.cpu.regs, back.flush, back.stall)
  {
    hide RunBackHalf, DecodeStep, RunFrontHalf, AccessThrows;
    FrontHalfFrame(predict, RunBackHalf(m.cpu, m.latches), m.latches);
  }

  lemma OnPathIfId(a: Arch, p: Positions, m: Machine)
    requires Inv(a, p, m) && Good(a, p.id) && !Mispredicted(a, p, m.latches.idEx)
    ensures p.next == p.id + 1 ==> Live(a, p.id) && IfIdHolds(m.latches.ifId, After(a, p.id))
    ensures p.next == p.id ==> m.latches.ifId == EMPTY_IF_ID
  {
    hide Live, EventAt, After, MemWbSlot, ExMemSlot, IdExSlot, IfIdHolds, CpuMatches, HaltsAt, Mispredicted, Good;
  }

  /** A redirect becomes pending when an unforeseen transfer moves into ID/EX. */
  lemma PendingAfter(a: Arch, p: Positions, m: Machine, predict: Prediction)
    requires Inv(a, p, m) && !AccessThrows(|m.cpu.memory|, m.latches.exMem) && !m.cpu.halted && Good(a, p.id)
    ensures PendingRedirect(a, NextPositions(a, p, m), Cycle(predict, m).machine.latches.idEx) ==
            if Mispredicted(a, p, m.latches.idEx) || IsLoadUse(m.latches.ifId, m.latches.idEx) then 0
            else if MispredictedInIfId(a, p, m.latches.ifId) then 1 else 0
  {
    hide Inv, AccessThrows, Live, EventAt, Cycle, RunBackHalf, BackHalfMatches, IsLoadUse, Decoded, TransfersControl,
         After, Good, IfIdHolds, DecodeInstruction, IdExFrom, CarriesOver;
    CutsAreConsecutive(a, p, m);
    ExecutingIsGood(a, p, m);
    NewIdEx(predict, m);
    BackHalfPreserves(a, p, m);
    if !Mispredicted(a, p, m.latches.idEx) {
      OnPathIfId(a, p, m);
      if p.next == p.id + 1 && !IsLoadUse(m.latches.ifId, m.latches.idEx) {
        IdCarriesOver(After(a, p.id), m.latches.ifId, RunBackHalf(m.cpu, m.latches).cpu.regs);
        TransferGoesOn(a, p, m);
      }
    }
  }

  lemma TransferGoesOn(a: Arch, p: Positions, m: Machine)
    requires p.next == p.id + 1 && Live(a, p.id) && IfIdHolds(m.latches.ifId, After(a, p.id))
    ensures TransfersControl(Decoded(After(a, p.id))) ==> Live(a, p.next)
  {
    hide Live, EventAt, After, IfIdHolds, Decoded, TransfersControl;
    TransfersRetire(After(a, p.id), m.latches.ifId);
    if TransfersControl(Decoded(After(a, p.id))) {
      LiveExtends(a, p.id);
    }
  }

  /** A halt reads no register, so it is never held. */
  lemma HaltIsNotHeld(b: Arch, ifId: IfId, idEx: IdEx)
    requires IfIdHolds(ifId, b) && IsLoadUse(ifId, idEx)
    ensures !EventAt(b).Halt?
  {
    hide FetchWord, AluOpOf, ConditionOf, AccessWidthOf, AccessInBounds, InBounds, DecodeInstruction;
    DecodedIsWellControlled(b);
    EventsAndControl(b, Decoded(b));
    hide ClassOf;
  }

  /** The cycle holds the entry in IF/ID for the load before it. */
  ghost predicate Held(a: Arch, p: Positions, m: Machine) {
    !Mispredicted(a, p, m.latches.idEx) && IsLoadUse(m.latches.ifId, m.latches.idEx)
  }

  /** The cycle finds nothing at the address to fetch from. */
  ghost predicate Waits(a: Arch, p: Positions, m: Machine) {
    EntryToFetch(a, p, m).Some? && EventAt(After(a, EntryToFetch(a, p, m).value)).Stuck?
  }

  /**
   * Each cycle fetches an entry, holds one for a load, fetches off the path, drains the halt or finds nothing to
   * fetch: one of the five.
   */
  lemma SlotUsed(a: Arch, p: Positions, m: Machine)
    requires Inv(a, p, m) && Good(a, p.ex) && Good(a, p.id) && !m.cpu.halted
    requires Good(a, p.next) || Held(a, p, m)
    ensures var q := NextPositions(a, p, m);
            var mispredicted := Mispredicted(a, p, m.latches.idEx);
            var held := !mispredicted && IsLoadUse(m.latches.ifId, m.latches.idEx);
            var astray := !mispredicted && !held && MispredictedInIfId(a, p, m.latches.ifId);
            q.next + Drained(a, q) + (if held then 1 else 0) + (if astray then 1 else 0)
              + (if Waits(a, p, m) then 1 else 0) == p.next + Drained(a, p) + 1
  {
    hide Inv, EventAt, Mispredicted, IsLoadUse, After, IfIdHolds;
    CutsAreConsecutive(a, p, m);
    if Mispredicted(a, p, m.latches.idEx) {
      hide Live, Good, MispredictedInIfId;
      MispredictedIsLive(a, p, m);
      MispredictedIsNoLoad(a, p, m);
      LiveMeansNoHalt(a, p.id);
    } else {
      OnPathIfId(a, p, m);
      NoStallWithoutPair(a, p, m);
      if IsLoadUse(m.latches.ifId, m.latches.idEx) {
        hide Live, Good, MispredictedInIfId;
        HaltIsNotHeld(After(a, p.id), m.latches.ifId, m.latches.idEx);
      } else if p.next == p.id {
        hide Live, Good, MispredictedInIfId;
        SlotUsedWhileEmpty(a, p, m);
      } else {
        hide Live, Good;
        SlotUsedWhileMoving(a, p, m);
      }
    }
  }

  lemma SlotUsedWhileEmpty(a: Arch, p: Positions, m: Machine)
    requires Inv(a, p, m) && Good(a, p.id) && !m.cpu.halted && p.next == p.id && Consecutive(p)
    requires !Mispredicted(a, p, m.latches.idEx) && !IsLoadUse(m.latches.ifId, m.latches.idEx)
    ensures NextPositions(a, p, m).next + Drained(a, NextPositions(a, p, m)) + (if Waits(a, p, m) then 1 else 0)
            == p.next + Drained(a, p) + 1
  {
    EmptyFetchSlot(a, p, m);
    NotRetiredHalt(a, p, m);
    hide Inv, EventAt, Mispredicted, IsLoadUse, After, IfIdHolds, Live, MispredictedInIfId;
    if Live(a, p.id) {
      LiveMeansNoHalt(a, p.id);
    }
  }

  lemma NotRetiredHalt(a: Arch, p: Positions, m: Machine)
    requires Inv(a, p, m) && !m.cpu.halted
    ensures !HaltsAt(a, p.wb)
  {
    hide Live, EventAt, After, MemWbSlot, ExMemSlot, IdExSlot, FetchSlot, Good;
  }

  lemma SlotUsedWhileMoving(a: Arch, p: Positions, m: Machine)
    requires Good(a, p.id) && p.next == p.id + 1 && Consecutive(p) && Live(a, p.id)
    requires IfIdHolds(m.latches.ifId, After(a, p.id))
    requires !Mispredicted(a, p, m.latches.idEx) && !IsLoadUse(m.latches.ifId, m.latches.idEx)
    requires Good(a, p.next)
    ensures NextPositions(a, p, m).next + Drained(a, NextPositions(a, p, m)) + (if Waits(a, p, m) then 1 else 0)
            + (if MispredictedInIfId(a, p, m.latches.ifId) then 1 else 0) == p.next + Drained(a, p) + 1
  {
    hide EventAt, Mispredicted, IsLoadUse, After, IfIdHolds, Live, Decoded, TransfersControl;
    TransferGoesOn(a, p, m);
    if Live(a, p.next) {
      LiveMeansNoHalt(a, p.next);
    }
  }

  /** A cycle adds one to what is accounted for, unless it waits. */
  lemma CycleIsAccounted(a: Arch, p: Positions, m: Machine, predict: Prediction)
    requires Inv(a, p, m) && !AccessThrows(|m.cpu.memory|, m.latches.exMem) && !m.cpu.halted
    requires Good(a, p.id) && (Good(a, p.next) || Held(a, p, m))
    ensures Accounted(a, NextPositions(a, p, m), Cycle(predict, m).machine) + (if Waits(a, p, m) then 1 else 0)
         == Accounted(a, p, m) + 1
  {
    hide Inv, AccessThrows, Live, EventAt, Cycle, RunBackHalf, Mispredicted, BackHalfMatches, IsLoadUse,
         MispredictedInIfId, After, PendingRedirect, Good, LoadUse, JumpsAway, NextPositions, Drained, Waits;
    NextCuts(a, p, m);
    ExecutingIsGood(a, p, m);
    CycleStats(predict, m);
    BackHalfPreserves(a, p, m);
    RedirectsAccounted(a, p, m, predict);
    PendingAfter(a, p, m, predict);
    SlotUsed(a, p, m);
  }

  lemma GoodBelow(a: Arch, p: Positions, m: Machine)
    requires Inv(a, p, m) && Good(a, p.id)
    ensures Good(a, p.ex)
  {
    hide Inv, Live, EventAt, After, HaltsAt;
    CutsAreConsecutive(a, p, m);
    if p.ex < p.id {
      GoodPrefix(a, p.ex, p.id);
    }
  }

  lemma CyclesPreserved(a: Arch, p: Positions, m: Machine, predict: Prediction)
    requires Inv(a, p, m) && !AccessThrows(|m.cpu.memory|, m.latches.exMem) && !m.cpu.halted
    requires Good(a, p.id) && CyclesMatch(a, p, m)
    requires (Good(a, p.next) || Held(a, p, m)) && !Waits(a, p, m)
    ensures CyclesMatch(a, NextPositions(a, p, m), Cycle(predict, m).machine)
  {
    hide Inv, AccessThrows, Cycle, NextPositions, Accounted, Good, Waits, Held;
    CycleIsAccounted(a, p, m, predict);
    CycleStats(predict, m);
  }

  /** Where cycles are counted after a cycle, they were before it, and it has not waited. */
  lemma CountedBefore(a: Arch, p: Positions, m: Machine)
    requires Inv(a, p, m) && Good(a, p.ex) && Counting(a, NextPositions(a, p, m))
    ensures Good(a, p.id) && Counting(a, p) && (Good(a, p.next) || Held(a, p, m)) && !Waits(a, p, m)
  {
    hide Inv, Live, EventAt, After, Mispredicted, IsLoadUse, MispredictedInIfId, Good;
    var q := NextPositions(a, p, m);
    CutsAreConsecutive(a, p, m);
    if Good(a, p.id) {
      if Mispredicted(a, p, m.latches.idEx) {
        MispredictedIsNoLoad(a, p, m);
        MispredictedIsLive(a, p, m);
      } else {
        NoStallWithoutPair(a, p, m);
        OnPathIfId(a, p, m);
        if p.next == p.id + 1 {
          LiveIsGood(a, p.id);
        }
        GoodOfNext(a, p, q);
      }
    } else {
      LiveIsNotShadow(a, p.id);
    }
  }

  /** Nothing enters ID/EX but from IF/ID, in a cycle that neither redirects nor holds. */
  lemma EntersFromIfId(a: Arch, p: Positions, m: Machine)
    requires Inv(a, p, m) && Good(a, p.id)
    ensures var q := NextPositions(a, p, m);
            q.id == q.ex + 1 ==>
              && p.next == p.id + 1 && q.id == p.next && Live(a, p.id)
              && !Mispredicted(a, p, m.latches.idEx) && !IsLoadUse(m.latches.ifId, m.latches.idEx)
  {
    hide Inv, Live, EventAt, After, Mispredicted, IsLoadUse, MispredictedInIfId, Good;
    CutsAreConsecutive(a, p, m);
    if !Mispredicted(a, p, m.latches.idEx) {
      OnPathIfId(a, p, m);
    }
  }

  lemma NothingDrained(a: Arch, p: Positions)
    requires Consecutive(p) && p.next == p.id + 1
    ensures Drained(a, p) == 0
  {
    hide HaltsAt;
  }

  lemma EntersPreserved(a: Arch, p: Positions, m: Machine, predict: Prediction)
    requires Inv(a, p, m) && !AccessThrows(|m.cpu.memory|, m.latches.exMem) && !m.cpu.halted
    requires Good(a, p.id) && StallsMatch(a, p, m.cpu) && (Counting(a, p) ==> CyclesMatch(a, p, m))
    requires NextPositions(a, p, m).id == NextPositions(a, p, m).ex + 1
    ensures EntersOnTime(a, NextPositions(a, p, m), Cycle(predict, m).machine)
  {
    hide Inv, AccessThrows, Cycle, NextPositions, Good, Live, EventAt, After, RunBackHalf, Mispredicted, IsLoadUse,
         BackHalfMatches, Drained, LoadUse, JumpsAway, Count;
    EntersFromIfId(a, p, m);
    CutsAreConsecutive(a, p, m);
    NextCuts(a, p, m);
    NothingDrained(a, p);
    CycleStats(predict, m);
    BackHalfPreserves(a, p, m);
    RedirectsAccounted(a, p, m, predict);
    StallsPreserved(a, p, m, predict);
  }

  lemma LiveIsNotShadow(a: Arch, n: nat)
    requires !Good(a, n)
    ensures !Live(a, n)
  {
    hide Live;
  }

  lemma GoodOfNext(a: Arch, p: Positions, q: Positions)
    ensures Fetching(a, q) && p.next < q.next ==> Fetching(a, p)
    ensures Live(a, p.next) ==> Good(a, p.next)
  {
    hide Live, EventAt, After;
    if Good(a, q.next) && p.next < q.next {
      GoodPrefix(a, p.next, q.next);
      GoodMeansNoFault(a, q.next, p.next);
    }
  }

  lemma LiveIsGood(a: Arch, n: nat)
    requires Live(a, n)
    ensures Good(a, n)
  {
    hide Live;
  }

  /** The statistics follow the trace through every cycle, whatever is predicted. */
  lemma StatsPreserved(a: Arch, table: CounterTable, p: Positions, m: Machine, predict: Prediction)
    requires Inv(a, p, m) && !AccessThrows(|m.cpu.memory|, m.latches.exMem) && !m.cpu.halted
    requires StatsInv(a, table, p, m)
    ensures StatsInv(a, table, NextPositions(a, p, m), Cycle(predict, m).machine)
  {
    hide Inv, AccessThrows, Good, Cycle, NextPositions, CountersMatch, StallsMatch, CyclesMatch, Counting, Waits, Held,
         EntersOnTime;
    var q := NextPositions(a, p, m);
    CountersPreserved(a, table, p, m, predict);
    if Good(a, q.id) {
      GoodBefore(a, p, m);
      StallsPreserved(a, p, m, predict);
    }
    if Counting(a, q) {
      ExecutingIsGood(a, p, m);
      CountedBefore(a, p, m);
      CyclesPreserved(a, p, m, predict);
    }
    if Good(a, q.ex) && q.id == q.ex + 1 {
      NextCuts(a, p, m);
      EntersPreserved(a, p, m, predict);
    }
  }

  lemma GoodBefore(a: Arch, p: Positions, m: Machine)
    requires Inv(a, p, m) && Good(a, NextPositions(a, p, m).id)
    ensures Good(a, p.id)
  {
    hide Inv, Live, EventAt, After, Mispredicted, IsLoadUse, MispredictedInIfId, Good;
    CutsAreConsecutive(a, p, m);
    if p.id < NextPositions(a, p, m).id {
      GoodPrefix(a, p.id, NextPositions(a, p, m).id);
      LiveIsGood(a, p.id);
    }
  }
}
