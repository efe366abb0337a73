/**
 * Which store can be fetched past. IF runs after MEM, so an entry is fetched from memory as it stands before the entry
 * one or two ahead of it: one when fetch was held up between the two, by a redirect or a load, and two otherwise.
 */
module FetchWindow {
  import opened Words
  import opened Memory
  import opened BranchPredictor
  import opened PipelineRegisters
  import opened Instruction
  import opened CpuState
  import opened Forwarding
  import opened Hazard
  import opened Stages
  import opened Isa
  import opened LatchInvariants
  import opened Refinement
  import opened Accounting

  // Which entries EX redirects fetch behind

  /** A transfer that some prediction gets wrong: a jump away, or a branch to anywhere but the next instruction. */
  predicate MayRedirect(b: Arch) {
    Transfers(b) && (Step(b).pc != PathOf(b, true) || Step(b).pc != PathOf(b, false))
  }

  function MayRedirectIn(a: Arch): nat -> bool {
    (i: nat) => MayRedirect(After(a, i))
  }

  lemma JumpsAwayMayRedirect(b: Arch)
    ensures JumpsAway(b) ==> MayRedirect(b)
  {
    hide EventAt, DecodeInstruction, FetchWord, Step, Plus, PlusFour;
  }

  /** Where EX redirects fetch behind these entries, fetch is held up on its way from entry `n - 2` to entry `n`. */
  ghost predicate HeldUp(a: Arch, redirects: nat -> bool, n: nat) {
    || n == 1
    || (n > 0 && redirects(n - 1))
    || (n > 1 && redirects(n - 2))
    || (n > 0 && LoadUsesIn(a)(n - 1))
  }

  /** The entry before which memory stands as it does when entry `n` is fetched. */
  ghost function FetchCut(a: Arch, redirects: nat -> bool, n: nat): nat {
    if n == 0 then 0 else if HeldUp(a, redirects, n) then n - 1 else n - 2
  }

  /** Every entry is fetched from memory in which its word stands: a property of the trace and of these entries. */
  ghost predicate FetchesAreFresh(a: Arch, redirects: nat -> bool) {
    forall n: nat | Live(a, n) :: WordStands(a, n, FetchCut(a, redirects, n))
  }

  /** No store is fetched past, neither by a predictor that is always right nor by one that is always wrong. */
  ghost predicate NoStaleFetch(a: Arch) {
    FetchesAreFresh(a, JumpsAwayIn(a)) && FetchesAreFresh(a, MayRedirectIn(a))
  }

  /** What cannot be fetched stands: memory does not grow. */
  lemma UnreachableStands(a: Arch, n: nat, k: nat)
    requires EventAt(After(a, n)).Stuck?
    ensures WordStands(a, n, k)
  {
    hide Decoded, After;
    MemorySizes(a, n, k);
  }

  /** Where a fetched entry stands to the cuts. */
  lemma FetchedEntry(a: Arch, p: Positions, m: Machine)
    requires Inv(a, p, m) && EntryToFetch(a, p, m).Some?
    ensures var n := EntryToFetch(a, p, m).value;
            && p.ex <= n <= p.ex + 2
            && (Mispredicted(a, p, m.latches.idEx) ==> n == p.id == p.ex + 1)
            && (!Mispredicted(a, p, m.latches.idEx) ==>
                  n == p.next && Live(a, n) && (n == p.id ==> p.id == 0 || EventAt(After(a, n)).Stuck?))
  {
    hide Inv, Live, EventAt, After, Mispredicted, IsLoadUse, MispredictedInIfId, Good;
    CutsAreConsecutive(a, p, m);
    if Mispredicted(a, p, m.latches.idEx) {
      GoodBelow(a, p, m);
      MispredictedIsNoLoad(a, p, m);
    } else if p.next == p.id {
      EmptyFetchSlot(a, p, m);
    }
  }

  /** A jump away is always mispredicted, in ID/EX and in IF/ID: fetch goes straight on behind a jump. */
  lemma JumpAwayInIfId(a: Arch, p: Positions, m: Machine)
    requires p.next == p.id + 1 && IfIdHolds(m.latches.ifId, After(a, p.id))
    ensures JumpsAwayIn(a)(p.id) ==> MispredictedInIfId(a, p, m.latches.ifId)
  {
    hide EventAt, Decoded, IsLoadUse, Mispredicted, Step;
  }

  lemma JumpAwayInIdEx(a: Arch, p: Positions, m: Machine)
    requires Inv(a, p, m) && Good(a, p.ex) && p.id == p.ex + 1
    ensures JumpsAwayIn(a)(p.ex) ==> Mispredicted(a, p, m.latches.idEx)
  {
    hide Inv, Good, After, Mispredicted;
    if JumpsAwayIn(a)(p.ex) {
      JumpIsNoBranch(a, p, m);
      JumpsAreForeseenStraight(a, p, m);
    }
  }

  lemma JumpIsNoBranch(a: Arch, p: Positions, m: Machine)
    requires Inv(a, p, m) && Good(a, p.ex) && p.id == p.ex + 1 && JumpsAway(After(a, p.ex))
    ensures !(m.latches.idEx.valid && m.latches.idEx.control.branch)
  {
    hide Good, EventAt, After, HaltsAt, MemWbSlot, ExMemSlot, FetchSlot, CpuMatches, Decoded, Step, LoadUseFree,
         IdExHolds, Live, Transfers;
    IdExEvents(After(a, p.ex), m.latches.idEx, m.cpu.regs);
    TransferKinds(After(a, p.ex));
  }

  /** Fetching on behind ID/EX and IF/ID, both full, means that nothing holds fetch up. */
  lemma NotHeldUp(a: Arch, p: Positions, m: Machine)
    requires Inv(a, p, m) && EntryToFetch(a, p, m) == Some(p.id + 1) && p.ex + 1 == p.id
    ensures !HeldUp(a, JumpsAwayIn(a), p.id + 1)
  {
    hide Inv, Good, EventAt, After, Mispredicted, IsLoadUse, JumpsAway, LoadUse, MispredictedInIfId, Live, Consecutive;
    CutsAreConsecutive(a, p, m);
    FetchedEntry(a, p, m);
    GoodBelow(a, p, m);
    OnPathIfId(a, p, m);
    JumpAwayInIfId(a, p, m);
    JumpAwayInIdEx(a, p, m);
    LoadUseDetected(a, p, m);
  }

  /** A redirect is one that some prediction would have brought about. */
  lemma MispredictedMayRedirect(a: Arch, p: Positions, m: Machine)
    requires Inv(a, p, m) && Good(a, p.ex) && Good(a, p.id) && Mispredicted(a, p, m.latches.idEx)
    ensures p.id == p.ex + 1 && MayRedirectIn(a)(p.ex)
  {
    hide Good, Live, EventAt, HaltsAt, MemWbSlot, ExMemSlot, FetchSlot, CpuMatches, Decoded, Step, LoadUseFree,
         IdExHolds, Transfers, PathOf, Inv;
    MispredictedIsNoLoad(a, p, m);
    PathInIdEx(a, p, m);
  }

  /** What fetch went on to behind the entry in ID/EX is where its prediction points. */
  lemma PathInIdEx(a: Arch, p: Positions, m: Machine)
    requires Inv(a, p, m) && Good(a, p.ex) && p.id == p.ex + 1 && m.latches.idEx.valid
    ensures m.latches.idEx.predictedNextPc == PathOf(After(a, p.ex), m.latches.idEx.predictedTaken)
  {
    hide Good, EventAt, After, HaltsAt, MemWbSlot, ExMemSlot, FetchSlot, CpuMatches, Decoded, Step, LoadUseFree, Live,
         PathOf;
  }

  // Why ID/EX is empty

  /** ID/EX is empty behind a redirect, while an entry is held for a load, and at the start. */
  ghost predicate BubblesFollow(a: Arch, redirects: nat -> bool, p: Positions, l: Latches) {
    Good(a, p.id) && !Mispredicted(a, p, l.idEx) && p.next == p.id + 1 && p.ex == p.id ==>
      p.id == 0 || redirects(p.id - 1) || LoadUsesIn(a)(p.id)
  }

  lemma BubblesPreserved(a: Arch, redirects: nat -> bool, p: Positions, m: Machine, predict: Prediction)
    requires Inv(a, p, m) && !AccessThrows(|m.cpu.memory|, m.latches.exMem) && !m.cpu.halted
    requires Good(a, p.id) && Mispredicted(a, p, m.latches.idEx) ==> redirects(p.ex)
    ensures BubblesFollow(a, redirects, NextPositions(a, p, m), Cycle(predict, m).machine.latches)
  {
    hide Inv, EventAt, Live, After, IsLoadUse, Good, Cycle, AccessThrows, LoadUse, Mispredicted, MispredictedInIfId;
    CutsAreConsecutive(a, p, m);
    if Good(a, p.id) {
      GoodBelow(a, p, m);
      if Mispredicted(a, p, m.latches.idEx) {
        MispredictedIsNoLoad(a, p, m);
      } else if IsLoadUse(m.latches.ifId, m.latches.idEx) {
        StallKeepsIfId(a, p, m, predict);
      } else if p.next == p.id {
        EmptyFetchSlot(a, p, m);
      }
    }
  }

  /** Under the condition for every predictor, whatever a cycle fetches is fresh. */
  lemma NoStaleFetchIsFresh(a: Arch, p: Positions, m: Machine)
    requires NoStaleFetch(a) && Inv(a, p, m) && BubblesFollow(a, MayRedirectIn(a), p, m.latches)
    ensures FetchFresh(a, p, m)
  {
    hide Inv, Good, EventAt, After, Mispredicted, IsLoadUse, JumpsAway, LoadUse, MispredictedInIfId, Live, WordStands,
         EntryToFetch, MayRedirect;
    if EntryToFetch(a, p, m).Some? {
      var n := EntryToFetch(a, p, m).value;
      FetchedEntry(a, p, m);
      CutsAreConsecutive(a, p, m);
      FetchedIsLive(a, p, m);
      FetchedIsGood(a, p, m);
      if EventAt(After(a, n)).Stuck? {
        UnreachableStands(a, n, p.ex);
      } else if n == p.ex + 2 {
        NotHeldUp(a, p, m);
      } else if Mispredicted(a, p, m.latches.idEx) {
        MispredictedMayRedirect(a, p, m);
      }
    }
  }

  lemma FetchedIsLive(a: Arch, p: Positions, m: Machine)
    requires Inv(a, p, m) && EntryToFetch(a, p, m).Some?
    ensures Live(a, EntryToFetch(a, p, m).value)
  {
    hide Inv, Live, EventAt, After, Mispredicted, IsLoadUse, MispredictedInIfId, HaltsAt, Good;
    if Mispredicted(a, p, m.latches.idEx) {
      GoodBelow(a, p, m);
      MispredictedIsLive(a, p, m);
    }
  }

  // For the configured predictor, the redirects are a function of the trace

  /** Entry `n` is fetched before entry `n - 1` has trained the table, unless it is the target of a redirect. */
  function TableSeen(a: Arch, mode: BranchPredictorType, table: CounterTable, n: nat, redirected: bool): CounterTable {
    TrainedBy(a, mode, table, if n == 0 || redirected then n else n - 1)
  }

  /** Entry `n` goes elsewhere than predicted, so EX redirects fetch behind it. */
  predicate RedirectsAt(a: Arch, mode: BranchPredictorType, table: CounterTable, n: nat) {
    var seen := TableSeen(a, mode, table, n, n > 0 && RedirectsAt(a, mode, table, n - 1));
    Transfers(After(a, n)) && Step(After(a, n)).pc != PathOf(After(a, n), Predict(seen, mode, After(a, n).pc))
  }

  function RedirectsIn(a: Arch, mode: BranchPredictorType, table: CounterTable): nat -> bool {
    (i: nat) => RedirectsAt(a, mode, table, i)
  }

  /** These are the entries that the machine redirects behind, as far as its latches show. */
  ghost predicate PathInv(a: Arch, redirects: nat -> bool, p: Positions, l: Latches) {
    && (Good(a, p.ex) && p.id == p.ex + 1 ==> (Mispredicted(a, p, l.idEx) <==> redirects(p.ex)))
    && (Good(a, p.id) && !Mispredicted(a, p, l.idEx) && p.next == p.id + 1 ==>
          (MispredictedInIfId(a, p, l.ifId) <==> redirects(p.id)))
    && BubblesFollow(a, redirects, p, l)
  }

  /** What this cycle fetches is predicted wrong exactly if it is one of these entries. */
  ghost predicate PredictsAs(a: Arch, redirects: nat -> bool, p: Positions, m: Machine, predict: Prediction) {
    EntryToFetch(a, p, m).Some? && !EventAt(After(a, EntryToFetch(a, p, m).value)).Stuck? ==>
      var n := EntryToFetch(a, p, m).value;
      MispredictedInIfId(a, NextPositions(a, p, m), Cycle(predict, m).machine.latches.ifId) <==> redirects(n)
  }

  // What a cycle that fetches does

  /** The address EX leaves is that of the entry to fetch. */
  lemma FetchAddress(a: Arch, p: Positions, m: Machine)
    requires Inv(a, p, m) && EntryToFetch(a, p, m).Some? && !Mispredicted(a, p, m.latches.idEx)
    ensures m.cpu.pc == After(a, p.next).pc
  {
    hide EventAt, MemWbSlot, ExMemSlot, IdExSlot, LoadUseFree, IsLoadUse, Decoded, CpuMatches, Mispredicted, HaltsAt,
         TransfersControl, IfIdHolds;
    if p.next == p.id + 1 {
      LiveAt(a, p.next, p.id);
      if !TransfersControl(Decoded(After(a, p.id))) {
        StraightOn(After(a, p.id), m.latches.ifId);
      }
    }
  }

  lemma RunFrontHalfFetches(predict: Prediction, back: BackHalf, latches: Latches)
    requires !back.stall && !HaltInFlight(latches)
    requires var idEx := DecodeStep(latches.ifId, back.cpu.regs, back.flush, back.stall);
             !(idEx.valid && idEx.control.halt)
    ensures var after := RunFrontHalf(predict, back, latches);
            && after.latches.ifId == FetchedAt(back.cpu, predict)
            && after.latches.idEx == DecodeStep(latches.ifId, back.cpu.regs, back.flush, back.stall)
            && after.cpu.counters == back.cpu.counters && after.cpu.mode == back.cpu.mode
  {
    hide DecodeStep, HaltInFlight, FetchedAt;
  }

  /** Nothing decoded just before a fetch is a halt, and a transfer was predicted right. */
  lemma DecodedBeforeFetch(a: Arch, p: Positions, m: Machine, regs: RegFile)
    requires Inv(a, p, m) && EntryToFetch(a, p, m).Some? && !Mispredicted(a, p, m.latches.idEx)
    ensures var idEx := DecodeStep(m.latches.ifId, regs, false, false);
            && !(idEx.valid && idEx.control.halt)
            && (p.next == p.id ==> !idEx.valid)
            && (idEx.valid && (idEx.control.branch || idEx.control.jump) ==>
                  idEx.predictedNextPc == After(a, p.next).pc)
  {
    hide EventAt, Live, After, Inv, Good, IsLoadUse, Decoded, Mispredicted, TransfersControl, IfIdHolds, DecodeStep;
    CutsAreConsecutive(a, p, m);
    OnPathIfId(a, p, m);
    if p.next == p.id + 1 {
      LiveAt(a, p.next, p.id);
      IdCarriesOver(After(a, p.id), m.latches.ifId, regs);
    } else {
      NothingDecoded(regs);
    }
  }

  lemma NothingDecoded(regs: RegFile)
    ensures !DecodeStep(EMPTY_IF_ID, regs, false, false).valid
  {
    hide DecodeInstruction;
  }

  lemma BackHalfKeepsClock(cpu: CpuState, latches: Latches)
    requires !AccessThrows(|cpu.memory|, latches.exMem)
    ensures RunBackHalf(cpu, latches).cpu.stats.clockCycles == cpu.stats.clockCycles
  {
    hide Forwarded, Resolve, Redirects, IsLoadUse, MemWbFrom, ExMemFrom, RegsAfterWriteback, MemoryAfterStore,
         WritesAfterStore, Trained, AccessThrows;
  }

  /** A cycle that fetches an entry of the trace fetches at its address, from memory as MEM leaves it. */
  lemma FetchHappens(a: Arch, p: Positions, m: Machine, predict: Prediction) returns (cpu: CpuState)
    requires Inv(a, p, m) && !AccessThrows(|m.cpu.memory|, m.latches.exMem) && !m.cpu.halted
    requires EntryToFetch(a, p, m).Some?
    ensures var n, q := EntryToFetch(a, p, m).value, NextPositions(a, p, m);
            var after := Cycle(predict, m).machine;
            && after.latches.ifId == FetchedAt(cpu, predict)
            && cpu.memory == After(a, p.ex).memory && cpu.pc == After(a, n).pc
            && cpu.counters == after.cpu.counters && cpu.mode == after.cpu.mode
            && cpu.stats.clockCycles == m.cpu.stats.clockCycles
            && q.id == n && q.next == AfterFetch(a, n) && !Mispredicted(a, q, after.latches.idEx)
  {
    hide EventAt, Live, After, Inv, Good, IsLoadUse, Decoded, TransfersControl, IfIdHolds, DecodeStep, AccessThrows,
         RunBackHalf, RunFrontHalf, HaltInFlight, FetchedAt, ExMemSlot, MemWbSlot, CarriesOver;
    var back := RunBackHalf(m.cpu, m.latches);
    cpu := back.cpu;
    BackHalfPreserves(a, p, m);
    CutsAreConsecutive(a, p, m);
    FetchedEntry(a, p, m);
    FetchedIsLive(a, p, m);
    LivePrefix(a, p.id, EntryToFetch(a, p, m).value);
    NoHaltInFlight(a, p, m);
    BackHalfKeepsClock(m.cpu, m.latches);
    if back.flush {
      NothingDecodedOnFlush(m.latches.ifId, back.cpu.regs, back.stall);
    } else {
      DecodedBeforeFetch(a, p, m, back.cpu.regs);
      FetchAddress(a, p, m);
    }
    RunFrontHalfFetches(predict, back, m.latches);
  }

  lemma NothingDecodedOnFlush(ifId: IfId, regs: RegFile, stall: bool)
    ensures DecodeStep(ifId, regs, true, stall) == EMPTY_ID_EX
  {
    hide DecodeInstruction;
  }

  // Cuts and latches follow the redirects

  /** The entry a cycle fetches comes from just the memory that the trace says. */
  lemma FetchedFromCut(a: Arch, redirects: nat -> bool, p: Positions, m: Machine)
    requires Inv(a, p, m) && PathInv(a, redirects, p, m.latches) && EntryToFetch(a, p, m).Some?
    requires !EventAt(After(a, EntryToFetch(a, p, m).value)).Stuck?
    ensures FetchCut(a, redirects, EntryToFetch(a, p, m).value) == p.ex
  {
    hide Inv, Good, EventAt, After, Mispredicted, IsLoadUse, LoadUse, MispredictedInIfId, Live;
    FetchedEntry(a, p, m);
    FetchedIsGood(a, p, m);
    CutsAreConsecutive(a, p, m);
    if !Mispredicted(a, p, m.latches.idEx) && p.next == p.id + 1 && p.id == p.ex + 1 {
      LoadUseDetected(a, p, m);
    }
  }

  lemma FreshWhenTraceIs(a: Arch, redirects: nat -> bool, p: Positions, m: Machine)
    requires FetchesAreFresh(a, redirects) && Inv(a, p, m) && PathInv(a, redirects, p, m.latches)
    ensures FetchFresh(a, p, m)
  {
    hide Inv, EventAt, After, Live, PathInv, WordStands, EntryToFetch, FetchCut;
    if EntryToFetch(a, p, m).Some? {
      var n := EntryToFetch(a, p, m).value;
      FetchedIsLive(a, p, m);
      if EventAt(After(a, n)).Stuck? {
        UnreachableStands(a, n, p.ex);
      } else {
        FetchedFromCut(a, redirects, p, m);
      }
    }
  }

  lemma FetchedIsGood(a: Arch, p: Positions, m: Machine)
    requires Inv(a, p, m) && EntryToFetch(a, p, m).Some?
    ensures Good(a, p.ex) && Good(a, p.id)
  {
    hide Inv, EventAt, After, Live, Mispredicted, IsLoadUse, MispredictedInIfId, Good;
    GoodBelow(a, p, m);
  }

  lemma BranchIsValid(b: Arch)
    ensures Decoded(b).control.branch ==> Decoded(b).IsValid()
  {
    hide DecodeInstruction, FetchWord;
    DecodedIsWellControlled(b);
  }

  /** IF predicts a branch from the table as it finds it. */
  lemma FetchTakesPath(cpu: CpuState, b: Arch)
    requires IfIdHolds(FetchedAt(cpu, CONFIGURED), b)
    ensures FetchedAt(cpu, CONFIGURED).predictedNextPc == PathOf(b, Predict(cpu.counters, cpu.mode, b.pc))
  {
    hide EventAt, ReadU32, Predict, InBounds, DecodeInstruction, FetchWord;
    BranchIsValid(b);
  }

  /** What the prediction just made means for the entry fetched. */
  lemma FetchedAstray(a: Arch, q: Positions, ifId: IfId, taken: bool)
    requires q.next == q.id + 1 && IfIdHolds(ifId, After(a, q.id))
    requires ifId.predictedNextPc == PathOf(After(a, q.id), taken)
    ensures MispredictedInIfId(a, q, ifId) <==>
              Transfers(After(a, q.id)) && Step(After(a, q.id)).pc != PathOf(After(a, q.id), taken)
  {
    hide EventAt, Step, Decoded, TransfersControl, IfIdHolds, PathOf;
    TransfersRetire(After(a, q.id), ifId);
  }

  /** The configured predictor redirects behind the entries that the trace and the table determine. */
  lemma ConfiguredPredictsAs(a: Arch, mode: BranchPredictorType, table: CounterTable, p: Positions, m: Machine)
    requires Inv(a, p, m) && PathInv(a, RedirectsIn(a, mode, table), p, m.latches)
    requires !AccessThrows(|m.cpu.memory|, m.latches.exMem) && !m.cpu.halted && FetchFresh(a, p, m)
    requires Cycle(CONFIGURED, m).machine.cpu.mode == mode
    requires Cycle(CONFIGURED, m).machine.cpu.counters == TrainedBy(a, mode, table, p.id)
    ensures PredictsAs(a, RedirectsIn(a, mode, table), p, m, CONFIGURED)
  {
    hide Inv, EventAt, After, Live, EntryToFetch, Cycle, AccessThrows, Mispredicted, PathOf, TrainedBy, Transfers,
         NextPositions, LoadUse, FetchedAt, WordStands, Good, IfIdHolds, MispredictedInIfId, BubblesFollow, Step,
         Predict;
    if EntryToFetch(a, p, m).Some? && !EventAt(After(a, EntryToFetch(a, p, m).value)).Stuck? {
      var n, q := EntryToFetch(a, p, m).value, NextPositions(a, p, m);
      var cpu := FetchHappens(a, p, m, CONFIGURED);
      FetchedEntry(a, p, m);
      FetchedIsGood(a, p, m);
      FetchesEntry(a, p, cpu, CONFIGURED, n);
      FetchTakesPath(cpu, After(a, n));
      FetchedAstray(a, q, FetchedAt(cpu, CONFIGURED), Predict(cpu.counters, mode, After(a, n).pc));
      SeenByFetch(a, mode, table, p, m);
    }
  }

  /** The table has been trained with all that the entry to fetch may see. */
  lemma SeenByFetch(a: Arch, mode: BranchPredictorType, table: CounterTable, p: Positions, m: Machine)
    requires Inv(a, p, m) && PathInv(a, RedirectsIn(a, mode, table), p, m.latches) && EntryToFetch(a, p, m).Some?
    requires !EventAt(After(a, EntryToFetch(a, p, m).value)).Stuck?
    ensures var n := EntryToFetch(a, p, m).value;
            TableSeen(a, mode, table, n, n > 0 && RedirectsAt(a, mode, table, n - 1)) == TrainedBy(a, mode, table, p.id)
  {
    hide Inv, EventAt, After, Live, Mispredicted, IsLoadUse, MispredictedInIfId, Good, RedirectsAt, TrainedBy;
    FetchedEntry(a, p, m);
    FetchedIsGood(a, p, m);
    CutsAreConsecutive(a, p, m);
  }

  lemma StallKeepsIfId(a: Arch, p: Positions, m: Machine, predict: Prediction)
    requires Inv(a, p, m) && Good(a, p.id) && !AccessThrows(|m.cpu.memory|, m.latches.exMem) && !m.cpu.halted
    requires !Mispredicted(a, p, m.latches.idEx) && IsLoadUse(m.latches.ifId, m.latches.idEx)
    ensures Cycle(predict, m).machine.latches.ifId == m.latches.ifId
    ensures p.next == p.id + 1 && p.id == p.ex + 1 && LoadUsesIn(a)(p.id)
  {
    hide Inv, EventAt, After, Live, IsLoadUse, Good, AccessThrows, RunBackHalf, BackHalfMatches, CarriesOver, LoadUse,
         Mispredicted, DecodeStep, HaltInFlight;
    BackHalfPreserves(a, p, m);
    FetchSlotCases(a, p, m);
    NoHaltInFlight(a, p, m);
    NoStallWithoutPair(a, p, m);
    LoadUseDetected(a, p, m);
    var back := RunBackHalf(m.cpu, m.latches);
    StalledDecodesNothing(m.latches.ifId, back.cpu.regs);
  }

  lemma StalledDecodesNothing(ifId: IfId, regs: RegFile)
    ensures DecodeStep(ifId, regs, false, true) == EMPTY_ID_EX
  {
    hide DecodeInstruction;
  }

  lemma PredictionMovesOn(a: Arch, p: Positions, m: Machine, predict: Prediction)
    requires Inv(a, p, m) && !AccessThrows(|m.cpu.memory|, m.latches.exMem) && !m.cpu.halted && Good(a, p.id)
    requires NextPositions(a, p, m).id == p.id + 1
    ensures !Mispredicted(a, p, m.latches.idEx) && p.next == p.id + 1
    ensures Mispredicted(a, NextPositions(a, p, m), Cycle(predict, m).machine.latches.idEx)
       <==> MispredictedInIfId(a, p, m.latches.ifId)
  {
    hide Inv, EventAt, Live, After, IsLoadUse, Good, Cycle, AccessThrows, Mispredicted, MispredictedInIfId,
         NextPositions;
    NextCuts(a, p, m);
    EntersFromIfId(a, p, m);
    PendingAfter(a, p, m, predict);
  }

  /** A cycle whose prediction is as these entries say keeps latches and cuts in step with them. */
  lemma PathPreserved(a: Arch, redirects: nat -> bool, p: Positions, m: Machine, predict: Prediction)
    requires Inv(a, p, m) && PathInv(a, redirects, p, m.latches) && PredictsAs(a, redirects, p, m, predict)
    requires !AccessThrows(|m.cpu.memory|, m.latches.exMem) && !m.cpu.halted
    ensures PathInv(a, redirects, NextPositions(a, p, m), Cycle(predict, m).machine.latches)
  {
    hide Inv, EventAt, Live, After, IsLoadUse, Good, Cycle, AccessThrows, Mispredicted, MispredictedInIfId,
         BubblesFollow;
    CutsAreConsecutive(a, p, m);
    if Good(a, p.id) {
      GoodBelow(a, p, m);
      if Mispredicted(a, p, m.latches.idEx) {
        MispredictedIsNoLoad(a, p, m);
      }
      if NextPositions(a, p, m).id == p.id + 1 {
        PredictionMovesOn(a, p, m, predict);
      }
      if !Mispredicted(a, p, m.latches.idEx) && IsLoadUse(m.latches.ifId, m.latches.idEx) {
        StallKeepsIfId(a, p, m, predict);
        SameInIfId(a, p, NextPositions(a, p, m), m.latches.ifId);
      }
    }
    BubblesPreserved(a, redirects, p, m, predict);
  }

  lemma SameInIfId(a: Arch, p: Positions, q: Positions, ifId: IfId)
    requires p.id == q.id && p.next == q.next
    ensures MispredictedInIfId(a, p, ifId) <==> MispredictedInIfId(a, q, ifId)
  {
    hide Decoded, After;
  }
}
