/**
 * The pipeline refines the reference machine. The entries of the ISA trace are numbered 0, 1, 2, ...; at any time the
 * latches cover consecutive stretches of that trace, each at most one entry long, and every cycle keeps it so.
 */
module Refinement {
  import opened Words
  import opened BranchPredictor
  import opened PipelineRegisters
  import opened Instruction
  import opened CpuState
  import opened Forwarding
  import opened Hazard
  import opened Stages
  import opened Isa
  import opened Correspondence
  import opened LatchInvariants

  /**
   * Where the trace is cut: entries below `wb` have left WB, MEM/WB covers [wb, mem), EX/MEM covers [mem, ex),
   * ID/EX covers [ex, id), IF/ID covers [id, next), and `next` is the entry to fetch next.
   */
  datatype Positions = Positions(wb: nat, mem: nat, ex: nat, id: nat, next: nat)

  predicate Consecutive(p: Positions) {
    && p.wb <= p.mem <= p.wb + 1
    && p.mem <= p.ex <= p.mem + 1
    && p.ex <= p.id <= p.ex + 1
    && p.id <= p.next <= p.id + 1
  }

  /** Entry `n - 1` is a halt, so entry `n` does not exist. */
  ghost predicate HaltsAt(a: Arch, n: nat) {
    n > 0 && EventAt(After(a, n - 1)).Halt?
  }

  /** Everything before entry `n` has executed, with nothing after a halt. */
  ghost predicate Good(a: Arch, n: nat) {
    Live(a, n) || (n > 0 && Live(a, n - 1) && HaltsAt(a, n))
  }

  /** ID/EX holds a control transfer that fetch did not foresee, so what follows it was fetched from the wrong path. */
  ghost predicate Mispredicted(a: Arch, p: Positions, idEx: IdEx) {
    && idEx.valid && (idEx.control.branch || idEx.control.jump)
    && idEx.predictedNextPc != After(a, p.id).pc
  }

  predicate LoadUseFree(exMem: ExMem, d: DecodedInstruction) {
    !(exMem.valid && exMem.control.regWrite && exMem.rd != X0 && exMem.control.memRead
      && DependsOn(SourcesOf(d), exMem.rd))
  }

  ghost predicate MemWbSlot(a: Arch, p: Positions, memWb: MemWb) {
    if p.mem == p.wb then memWb == EMPTY_MEM_WB
    else Live(a, p.wb) && MemWbHolds(memWb, After(a, p.wb))
  }

  ghost predicate ExMemSlot(a: Arch, p: Positions, exMem: ExMem) {
    if p.ex == p.mem then exMem == EMPTY_EX_MEM
    else Live(a, p.mem) && ExMemHolds(exMem, After(a, p.mem))
  }

  ghost predicate IdExSlot(a: Arch, p: Positions, idEx: IdEx, exMem: ExMem, regs: RegFile) {
    if p.id == p.ex then idEx == EMPTY_ID_EX
    else
      && Live(a, p.ex) && IdExHolds(idEx, After(a, p.ex), regs)
      && (idEx.valid ==> LoadUseFree(exMem, Decoded(After(a, p.ex))))
  }

  /** IF/ID and the program counter are on the path, except behind a mispredicted transfer. */
  ghost predicate FetchSlot(a: Arch, p: Positions, idEx: IdEx, ifId: IfId, pc: Word) {
    if Mispredicted(a, p, idEx) then p.next == p.id
    else if p.next == p.id then
      && ifId == EMPTY_IF_ID && pc == After(a, p.id).pc
      && (p.id == 0 || !Live(a, p.id) || EventAt(After(a, p.id)).Stuck?)
    else Live(a, p.id) && IfIdHolds(ifId, After(a, p.id)) && pc == ifId.predictedNextPc
  }

  /** The state of the CPU agrees with the reference machine at the cuts of WB and MEM. */
  ghost predicate CpuMatches(a: Arch, wb: nat, mem: nat, cpu: CpuState) {
    && cpu.regs == After(a, wb).regs
    && cpu.memory == After(a, mem).memory
    && cpu.writes == After(a, mem).writes
    && (cpu.halted <==> HaltsAt(a, wb))
  }

  /** The trace-indexed invariant. Nothing is said of what is younger than a faulting access: it never executes. */
  ghost predicate Inv(a: Arch, p: Positions, m: Machine) {
    && Consecutive(p)
    && Good(a, p.mem)
    && CpuMatches(a, p.wb, p.mem, m.cpu)
    && MemWbSlot(a, p, m.latches.memWb)
    && ExMemSlot(a, p, m.latches.exMem)
    && (Good(a, p.ex) ==> IdExSlot(a, p, m.latches.idEx, m.latches.exMem, m.cpu.regs))
    && (Good(a, p.id) ==> FetchSlot(a, p, m.latches.idEx, m.latches.ifId, m.cpu.pc))
  }

  // The trace

  lemma LivePrefix(a: Arch, j: nat, k: nat)
    requires Live(a, k) && j <= k
    ensures Live(a, j)
  {
    hide EventAt, After;
  }

  lemma LiveExtends(a: Arch, k: nat)
    requires Live(a, k) && Proceeds(After(a, k))
    ensures Live(a, k + 1)
  {
    hide EventAt, After;
  }

  lemma GoodPrefix(a: Arch, j: nat, k: nat)
    requires Good(a, k) && j < k
    ensures Live(a, j)
  {
    hide Live, EventAt, After;
    LivePrefix(a, j, if Live(a, k) then k else k - 1);
  }

  lemma GoodExtends(a: Arch, k: nat)
    requires Live(a, k) && !EventAt(After(a, k)).Stuck? && !EventAt(After(a, k)).Fault?
    ensures Good(a, k + 1)
    ensures Live(a, k + 1) <==> !EventAt(After(a, k)).Halt?
  {
    hide EventAt, After;
    if !EventAt(After(a, k)).Halt? {
      LiveExtends(a, k);
    } else if Live(a, k + 1) {
      LiveAt(a, k + 1, k);
    }
  }

  /** Up to a live entry nothing has halted. */
  lemma LiveMeansNoHalt(a: Arch, n: nat)
    requires Live(a, n)
    ensures !HaltsAt(a, n)
  {
    hide EventAt, After;
    if n > 0 {
      LiveAt(a, n, n - 1);
    }
  }

  // WB, MEM and EX

  /** The register operands EX resolves are the reference machine's, wherever the instruction reads them. */
  lemma ForwardingCorrect(rs: RegIndex, before: RegFile, middle: RegFile, now: RegFile,
                          exMem: ExMem, memWb: MemWb, value: Word)
    requires middle == RegsAfterWriteback(before, memWb)
    requires now == if exMem.valid && exMem.control.regWrite then WriteReg(middle, exMem.rd, value) else middle
    requires exMem.valid && exMem.control.regWrite && !exMem.control.memRead ==> value == ExMemForwardValue(exMem)
    requires rs != X0 ==>
               !(exMem.valid && exMem.control.regWrite && exMem.control.memRead && exMem.rd == rs)
    ensures ForwardedOperand(rs, ReadReg(before, rs), exMem, memWb).0 == ReadReg(now, rs)
  {
    assert rs == X0 ==> ReadReg(now, rs) == ReadReg(before, rs);
    hide ExMemForwardValue, WritebackValue, ReadReg, WriteReg;
    ReadAfterWrite(before, memWb.rd, WritebackValue(memWb), rs);
    ReadAfterWrite(middle, exMem.rd, value, rs);
  }

  /** MEM does not throw, so whatever is in EX/MEM executes and the entry after it is good. */
  lemma ExecutingIsGood(a: Arch, p: Positions, m: Machine)
    requires Inv(a, p, m) && !AccessThrows(|m.cpu.memory|, m.latches.exMem)
    ensures Good(a, p.ex)
  {
    hide Good, Live, EventAt, After, HaltsAt, AccessThrows, ExMemHolds, MemWbHolds, IfIdHolds, IdExHolds;
    if p.ex == p.mem + 1 {
      MemThrowsOnFault(After(a, p.mem), m.latches.exMem);
      ExMemIsFetched(After(a, p.mem), m.latches.exMem);
      GoodExtends(a, p.mem);
    }
  }

  lemma ExMemIsFetched(b: Arch, exMem: ExMem)
    requires ExMemHolds(exMem, b)
    ensures !EventAt(b).Stuck?
  {
    hide EventAt, Decoded, InExMem;
  }

  /** The register file across the entries in MEM/WB and EX/MEM. */
  lemma RegistersAhead(a: Arch, p: Positions, m: Machine) returns (value: Word)
    requires Inv(a, p, m) && !AccessThrows(|m.cpu.memory|, m.latches.exMem)
    ensures After(a, p.mem).regs == RegsAfterWriteback(m.cpu.regs, m.latches.memWb)
    ensures var exMem := m.latches.exMem;
            && After(a, p.ex).regs ==
               (if exMem.valid && exMem.control.regWrite then WriteReg(After(a, p.mem).regs, exMem.rd, value)
                else After(a, p.mem).regs)
            && (exMem.valid && exMem.control.regWrite && !exMem.control.memRead ==> value == ExMemForwardValue(exMem))
  {
    hide Good, Live, EventAt, Step, HaltsAt, AccessThrows, ExMemHolds, MemWbHolds, IfIdHolds, IdExHolds,
         ExMemForwardValue, WritebackValue, WriteReg;
    if p.mem == p.wb + 1 {
      WbAgrees(After(a, p.wb), m.latches.memWb);
    }
    value := ZERO;
    if p.ex == p.mem + 1 {
      value := ExMemForwardsResult(After(a, p.mem), m.latches.exMem);
    }
  }

  /** Every register operand the instruction in EX reads is the reference machine's value just before it. */
  lemma OperandsCorrect(a: Arch, p: Positions, m: Machine)
    requires Inv(a, p, m) && !AccessThrows(|m.cpu.memory|, m.latches.exMem) && m.latches.idEx.valid
    ensures p.id == p.ex + 1
    ensures var operands := Forwarded(m.latches.idEx, m.latches.exMem, m.latches.memWb);
            var now := After(a, p.ex);
            var d := Decoded(now);
            OperandsAgree(d, operands.rs1Value, operands.rs2Value, Rs1(now, d), Rs2(now, d))
  {
    ExecutingIsGood(a, p, m);
    var value := RegistersAhead(a, p, m);
    var now, d := After(a, p.ex), Decoded(After(a, p.ex));
    var idEx, exMem, memWb := m.latches.idEx, m.latches.exMem, m.latches.memWb;
    IdExReads(now, idEx, m.cpu.regs);
    hide Good, Live, EventAt, After, HaltsAt, AccessThrows, ExMemHolds, MemWbHolds, IfIdHolds, IdExHolds, Decoded,
         ExMemForwardValue, WritebackValue, WriteReg, ReadReg, ForwardedOperand, RegsAfterWriteback, FetchSlot;
    if ReadsRs1(d.kind) {
      ForwardingCorrect(idEx.rs1, m.cpu.regs, After(a, p.mem).regs, now.regs, exMem, memWb, value);
    }
    if ReadsRs2(d.kind) {
      ForwardingCorrect(idEx.rs2, m.cpu.regs, After(a, p.mem).regs, now.regs, exMem, memWb, value);
    }
  }

  lemma IdExReads(b: Arch, idEx: IdEx, regs: RegFile)
    requires IdExHolds(idEx, b, regs) && idEx.valid
    ensures var d := Decoded(b);
            && idEx.rs1 == d.rs1 && idEx.rs2 == d.rs2 && idEx.control == d.control
            && idEx.rs1Value == ReadReg(regs, d.rs1) && idEx.rs2Value == ReadReg(regs, d.rs2)
  {
    hide EventAt, Decoded, ReadReg;
  }

  lemma MemorySizes(a: Arch, i: nat, j: nat)
    ensures |After(a, i).memory| == |After(a, j).memory|
  {
    MemorySizeIsConstant(a, i);
    MemorySizeIsConstant(a, j);
  }

  /** The CPU and the latches that WB, MEM and EX leave, at the next cuts. */
  ghost predicate BackHalfMatches(a: Arch, p: Positions, back: BackHalf) {
    && CpuMatches(a, p.mem, p.ex, back.cpu)
    && MemWbSlot(a, Positions(p.mem, p.ex, p.id, p.id, p.id), back.memWb)
    && ExMemSlot(a, Positions(p.mem, p.ex, p.id, p.id, p.id), back.exMem)
  }

  lemma WritebackPreserves(a: Arch, p: Positions, m: Machine)
    requires Inv(a, p, m) && !AccessThrows(|m.cpu.memory|, m.latches.exMem) && !m.cpu.halted
    ensures WritebackStep(m.cpu, m.latches.memWb).regs == After(a, p.mem).regs
    ensures WritebackStep(m.cpu, m.latches.memWb).halted <==> HaltsAt(a, p.mem)
  {
    var value := RegistersAhead(a, p, m);
    hide RegsAfterWriteback, After;
    WritebackHalts(a, p, m);
  }

  lemma WritebackHalts(a: Arch, p: Positions, m: Machine)
    requires Inv(a, p, m) && !m.cpu.halted
    ensures WritebackStep(m.cpu, m.latches.memWb).halted <==> HaltsAt(a, p.mem)
  {
    hide Good, Live, EventAt, Step, ExMemHolds, MemWbHolds, IfIdHolds, IdExHolds, RegsAfterWriteback, FetchSlot,
         IdExSlot, ExMemSlot;
    if p.mem == p.wb + 1 {
      WbAgrees(After(a, p.wb), m.latches.memWb);
    }
  }

  lemma MemoryPreserves(a: Arch, p: Positions, m: Machine)
    requires Inv(a, p, m) && !AccessThrows(|m.cpu.memory|, m.latches.exMem)
    ensures MemoryAfterStore(m.cpu.memory, m.latches.exMem) == After(a, p.ex).memory
    ensures WritesAfterStore(m.cpu.writes, m.latches.exMem) == After(a, p.ex).writes
    ensures MemWbSlot(a, Positions(p.mem, p.ex, p.id, p.id, p.id), MemWbFrom(m.cpu.memory, m.latches.exMem))
  {
    hide Good, Live, EventAt, Step, HaltsAt, ExMemHolds, MemWbHolds, IfIdHolds, IdExHolds, FetchSlot, IdExSlot,
         RegsAfterWriteback, ReadMemory, WriteMemory;
    if p.ex == p.mem + 1 {
      MemAgrees(After(a, p.mem), m.latches.exMem);
      hide AccessThrows, MemoryAfterStore, WritesAfterStore, MemWbFrom;
    }
  }

  lemma ExecutePreserves(a: Arch, p: Positions, m: Machine)
    requires Inv(a, p, m) && !AccessThrows(|m.cpu.memory|, m.latches.exMem)
    ensures var operands := Forwarded(m.latches.idEx, m.latches.exMem, m.latches.memWb);
            ExMemSlot(a, Positions(p.mem, p.ex, p.id, p.id, p.id),
                      ExMemFrom(m.latches.idEx, operands.rs1Value, operands.rs2Value))
  {
    ExecutingIsGood(a, p, m);
    var idEx := m.latches.idEx;
    var operands := Forwarded(idEx, m.latches.exMem, m.latches.memWb);
    if idEx.valid {
      OperandsCorrect(a, p, m);
    }
    hide Good, Live, EventAt, After, HaltsAt, AccessThrows, ExMemHolds, MemWbHolds, IfIdHolds, IdExHolds, FetchSlot,
         Forwarded, OperandsAgree;
    if p.id == p.ex + 1 {
      ExAgrees(After(a, p.ex), idEx, m.cpu.regs, operands.rs1Value, operands.rs2Value);
      hide ExMemFrom;
    }
  }

  /** EX redirects fetch exactly when the transfer it resolves was mispredicted, and then to the right place. */
  lemma RedirectsWhenMispredicted(a: Arch, p: Positions, m: Machine)
    requires Inv(a, p, m) && !AccessThrows(|m.cpu.memory|, m.latches.exMem)
    ensures var operands := Forwarded(m.latches.idEx, m.latches.exMem, m.latches.memWb);
            var resolution := Resolve(m.latches.idEx, operands.rs1Value, operands.rs2Value);
            && (Redirects(m.latches.idEx, resolution) <==> Mispredicted(a, p, m.latches.idEx))
            && (Redirects(m.latches.idEx, resolution) ==> resolution.target == After(a, p.id).pc)
  {
    hide Inv, Good, After, AccessThrows, IdExHolds, Forwarded, OperandsAgree, Resolve, Step, Redirects, Decoded;
    var idEx := m.latches.idEx;
    if idEx.valid {
      ExecutingIsGood(a, p, m);
      OperandsCorrect(a, p, m);
      IdExInSlot(a, p, m);
      var operands := Forwarded(idEx, m.latches.exMem, m.latches.memWb);
      RedirectAgrees(After(a, p.ex), idEx, m.cpu.regs, operands.rs1Value, operands.rs2Value);
    } else {
      NoRedirectFromBubble(idEx, m.latches);
    }
  }

  lemma IdExInSlot(a: Arch, p: Positions, m: Machine)
    requires Inv(a, p, m) && Good(a, p.ex) && m.latches.idEx.valid
    ensures p.id == p.ex + 1 && After(a, p.id) == Step(After(a, p.ex))
    ensures IdExHolds(m.latches.idEx, After(a, p.ex), m.cpu.regs)
  {
    hide Good, Live, EventAt, Step, HaltsAt, ExMemHolds, MemWbHolds, IfIdHolds, IdExHolds, FetchSlot, LoadUseFree;
  }

  lemma NoRedirectFromBubble(idEx: IdEx, latches: Latches)
    requires !idEx.valid
    ensures var operands := Forwarded(idEx, latches.exMem, latches.memWb);
            !Redirects(idEx, Resolve(idEx, operands.rs1Value, operands.rs2Value))
  {
    hide Resolve, Forwarded;
  }

  /** The latch EX fills carries the destination and the control signals of the instruction it had. */
  predicate CarriesOver(exMem: ExMem, idEx: IdEx) {
    exMem.valid ==> idEx.valid && exMem.rd == idEx.rd && exMem.control == idEx.control
  }

  ghost predicate BackHalfFacts(a: Arch, p: Positions, m: Machine, back: BackHalf) {
    && BackHalfMatches(a, p, back)
    && CarriesOver(back.exMem, m.latches.idEx)
    && (back.flush <==> Mispredicted(a, p, m.latches.idEx))
    && (back.stall <==> !back.flush && IsLoadUse(m.latches.ifId, m.latches.idEx))
    && back.cpu.pc == (if back.flush then After(a, p.id).pc else m.cpu.pc)
  }

  lemma BackHalfPreserves(a: Arch, p: Positions, m: Machine)
    requires Inv(a, p, m) && !AccessThrows(|m.cpu.memory|, m.latches.exMem) && !m.cpu.halted
    ensures BackHalfFacts(a, p, m, RunBackHalf(m.cpu, m.latches))
  {
    hide Inv, Good, Live, EventAt, HaltsAt, AccessThrows, Forwarded, Resolve, After, RegsAfterWriteback,
         MemoryAfterStore, WritesAfterStore, MemWbFrom, AluResult, MemWbSlot, ExMemSlot, IsLoadUse, Mispredicted,
         Redirects, Trained;
    WritebackPreserves(a, p, m);
    MemoryPreserves(a, p, m);
    ExecutePreserves(a, p, m);
    RedirectsWhenMispredicted(a, p, m);
  }

  // ID and IF

  lemma NoHaltInFlight(a: Arch, p: Positions, m: Machine)
    requires Inv(a, p, m) && Live(a, p.id)
    ensures !HaltInFlight(m.latches)
  {
    hide Live, EventAt, After, MemWbHolds, ExMemHolds, IdExHolds, FetchSlot, LoadUseFree, CpuMatches;
    var l := m.latches;
    LivePrefix(a, p.ex, p.id);
    if p.mem == p.wb + 1 {
      LiveAt(a, p.id, p.wb);
      MemWbHaltSignal(After(a, p.wb), l.memWb);
    }
    if p.ex == p.mem + 1 {
      LiveAt(a, p.id, p.mem);
      ExMemHaltSignal(After(a, p.mem), l.exMem);
    }
    if p.id == p.ex + 1 {
      LiveAt(a, p.id, p.ex);
      IdExHaltSignal(After(a, p.ex), l.idEx, m.cpu.regs);
    }
  }

  /** A halt that has left ID is still in the pipeline unless the CPU has halted. */
  lemma HaltIsInFlight(a: Arch, p: Positions, m: Machine)
    requires Inv(a, p, m) && Good(a, p.ex) && HaltsAt(a, p.id) && !m.cpu.halted
    ensures HaltInFlight(m.latches)
  {
    hide Live, EventAt, After, MemWbHolds, ExMemHolds, IdExHolds, FetchSlot, LoadUseFree;
    var l := m.latches;
    if p.id == p.ex + 1 {
      IdExHaltSignal(After(a, p.ex), l.idEx, m.cpu.regs);
    } else if p.ex == p.mem + 1 {
      ExMemHaltSignal(After(a, p.mem), l.exMem);
    } else if p.mem == p.wb + 1 {
      MemWbHaltSignal(After(a, p.wb), l.memWb);
    }
  }

  ghost function AfterFetch(a: Arch, n: nat): nat {
    if EventAt(After(a, n)).Stuck? then n else n + 1
  }

  /** IF/ID holds a transfer that fetch did not foresee; what is fetched while it moves on is off the path. */
  ghost predicate MispredictedInIfId(a: Arch, p: Positions, ifId: IfId) {
    p.next == p.id + 1 && TransfersControl(Decoded(After(a, p.id))) && ifId.predictedNextPc != After(a, p.next).pc
  }

  /** The cuts after one more cycle. */
  ghost function NextPositions(a: Arch, p: Positions, m: Machine): Positions {
    if !Good(a, p.id) then Positions(p.mem, p.ex, p.id, p.id, p.id)
    else if Mispredicted(a, p, m.latches.idEx) then Positions(p.mem, p.ex, p.id, p.id, AfterFetch(a, p.id))
    else if IsLoadUse(m.latches.ifId, m.latches.idEx) then Positions(p.mem, p.ex, p.id, p.id, p.next)
    else if !Live(a, p.next) || MispredictedInIfId(a, p, m.latches.ifId) then
      Positions(p.mem, p.ex, p.id, p.next, p.next)
    else Positions(p.mem, p.ex, p.id, p.next, AfterFetch(a, p.next))
  }

  /** The word of entry `n` is in memory before entry `k` as it is when the reference machine reaches it. */
  ghost predicate WordStands(a: Arch, n: nat, k: nat) {
    FetchFrom(After(a, k).memory, After(a, n).pc) == FetchWord(After(a, n))
  }

  /** The entry of the trace that this cycle fetches, if it fetches one. */
  ghost function EntryToFetch(a: Arch, p: Positions, m: Machine): Option<nat> {
    if !Good(a, p.id) then None
    else if Mispredicted(a, p, m.latches.idEx) then Some(p.id)
    else if IsLoadUse(m.latches.ifId, m.latches.idEx) then None
    else if !Live(a, p.next) || MispredictedInIfId(a, p, m.latches.ifId) then None
    else Some(p.next)
  }

  /** What this cycle fetches of the trace is not overwritten by a store still ahead of MEM. */
  ghost predicate FetchFresh(a: Arch, p: Positions, m: Machine) {
    EntryToFetch(a, p, m).Some? ==> WordStands(a, EntryToFetch(a, p, m).value, p.ex)
  }

  /** Fetching an entry of the trace gets its word: nothing still in flight changes it. */
  lemma FetchesEntry(a: Arch, p: Positions, cpu: CpuState, predict: Prediction, n: nat)
    requires WordStands(a, n, p.ex)
    requires cpu.memory == After(a, p.ex).memory && cpu.pc == After(a, n).pc
    ensures if EventAt(After(a, n)).Stuck? then FetchedAt(cpu, predict) == EMPTY_IF_ID
            else FetchedAt(cpu, predict).valid && IfIdHolds(FetchedAt(cpu, predict), After(a, n))
  {
    hide Live, EventAt, After, FetchFrom, FetchedAt, FetchWord, Decoded;
    MemorySizes(a, p.ex, n);
    IfAgrees(After(a, n), cpu, predict);
  }

  /** What the front half leaves alone. */
  lemma FrontHalfFrame(predict: Prediction, back: BackHalf, latches: Latches)
    ensures var after := RunFrontHalf(predict, back, latches);
            && after.latches.exMem == back.exMem && after.latches.memWb == back.memWb
            && after.latches.idEx == DecodeStep(latches.ifId, back.cpu.regs, back.flush, back.stall)
            && after.cpu.regs == back.cpu.regs && after.cpu.memory == back.cpu.memory
            && after.cpu.writes == back.cpu.writes && after.cpu.halted == back.cpu.halted
  {
    hide DecodeStep, HaltInFlight, FetchedAt;
  }

  /** The cuts and the back half decide most of the invariant; ID/EX and fetch remain. */
  lemma AssembleInvariant(a: Arch, p: Positions, m: Machine, back: BackHalf, predict: Prediction, q: Positions)
    requires Inv(a, p, m) && Good(a, p.ex) && BackHalfFacts(a, p, m, back)
    requires Consecutive(q) && q.wb == p.mem && q.mem == p.ex && q.ex == p.id
    requires var after := RunFrontHalf(predict, back, m.latches);
             && (Good(a, q.ex) ==> IdExSlot(a, q, after.latches.idEx, back.exMem, back.cpu.regs))
             && (Good(a, q.id) ==> FetchSlot(a, q, after.latches.idEx, after.latches.ifId, after.cpu.pc))
    ensures Inv(a, q, RunFrontHalf(predict, back, m.latches))
  {
    hide Good, Live, EventAt, After, HaltsAt, MemWbHolds, ExMemHolds, IdExSlot, FetchSlot, RunFrontHalf,
         Mispredicted, IsLoadUse, CarriesOver;
    FrontHalfFrame(predict, back, m.latches);
  }

  lemma CutsAreConsecutive(a: Arch, p: Positions, m: Machine)
    requires Inv(a, p, m)
    ensures Consecutive(p)
  {
    hide Good, CpuMatches, MemWbSlot, ExMemSlot, IdExSlot, FetchSlot;
  }

  lemma FlushPreserves(a: Arch, p: Positions, m: Machine, back: BackHalf, predict: Prediction)
    requires FetchFresh(a, p, m) && Inv(a, p, m) && Live(a, p.id)
    requires Good(a, p.ex) && BackHalfFacts(a, p, m, back)
    requires Mispredicted(a, p, m.latches.idEx)
    ensures Inv(a, NextPositions(a, p, m), RunFrontHalf(predict, back, m.latches))
  {
    hide Live, EventAt, After, MemWbSlot, ExMemSlot, IdExHolds, IfIdHolds, LoadUseFree, IsLoadUse, HaltInFlight,
         FetchedAt, WordStands, Decoded, HaltsAt, Inv;
    CutsAreConsecutive(a, p, m);
    NoHaltInFlight(a, p, m);
    FetchesEntry(a, p, back.cpu, predict, p.id);
    AssembleInvariant(a, p, m, back, predict, NextPositions(a, p, m));
  }

  lemma StallPreserves(a: Arch, p: Positions, m: Machine, back: BackHalf, predict: Prediction)
    requires Inv(a, p, m) && Live(a, p.id)
    requires Good(a, p.ex) && BackHalfFacts(a, p, m, back)
    requires !Mispredicted(a, p, m.latches.idEx) && IsLoadUse(m.latches.ifId, m.latches.idEx)
    ensures Inv(a, NextPositions(a, p, m), RunFrontHalf(predict, back, m.latches))
  {
    hide Live, EventAt, After, MemWbSlot, ExMemSlot, IdExHolds, IfIdHolds, LoadUseFree, IsLoadUse, HaltInFlight,
         FetchedAt, WordStands, Decoded, HaltsAt, CpuMatches;
    NoHaltInFlight(a, p, m);
    AssembleInvariant(a, p, m, back, predict, NextPositions(a, p, m));
  }

  /** Fetch has come to the end of the trace, or to a word it cannot reach. */
  lemma WaitPreserves(a: Arch, p: Positions, m: Machine, back: BackHalf, predict: Prediction)
    requires FetchFresh(a, p, m) && Inv(a, p, m) && !m.cpu.halted && Good(a, p.id)
    requires Good(a, p.ex) && BackHalfFacts(a, p, m, back)
    requires !Mispredicted(a, p, m.latches.idEx) && p.next == p.id
    ensures Inv(a, NextPositions(a, p, m), RunFrontHalf(predict, back, m.latches))
  {
    hide Live, EventAt, After, MemWbSlot, ExMemSlot, IdExHolds, IfIdHolds, LoadUseFree, HaltInFlight,
         FetchedAt, WordStands, Decoded;
    if Live(a, p.id) {
      NoHaltInFlight(a, p, m);
      FetchesEntry(a, p, back.cpu, predict, p.id);
    } else {
      HaltIsInFlight(a, p, m);
    }
    AssembleInvariant(a, p, m, back, predict, NextPositions(a, p, m));
  }

  /** The interlock lets an instruction past ID only when no load just before it writes one of its operands. */
  lemma InterlockHolds(ifId: IfId, idEx: IdEx, exMem: ExMem, regs: RegFile)
    requires !IsLoadUse(ifId, idEx) && CarriesOver(exMem, idEx)
    ensures DecodeStep(ifId, regs, false, false).valid ==> LoadUseFree(exMem, DecodeInstruction(ifId.instruction))
  {
    hide DecodeInstruction, SourcesOf, DependsOn, IdExFrom;
  }

  lemma MovedIntoIdEx(a: Arch, p: Positions, m: Machine, back: BackHalf, q: Positions)
    requires Live(a, p.id) && BackHalfFacts(a, p, m, back)
    requires !IsLoadUse(m.latches.ifId, m.latches.idEx)
    requires IfIdHolds(m.latches.ifId, After(a, p.id))
    requires q.ex == p.id && q.id == p.id + 1
    ensures IdExSlot(a, q, DecodeStep(m.latches.ifId, back.cpu.regs, false, false), back.exMem, back.cpu.regs)
  {
    hide Live, EventAt, After, MemWbSlot, ExMemSlot, IdExHolds, DecodeInstruction, FetchWord, LoadUseFree,
         CpuMatches, Mispredicted, DecodeStep, IsLoadUse, CarriesOver;
    IdAgrees(After(a, p.id), m.latches.ifId, back.cpu.regs);
    InterlockHolds(m.latches.ifId, m.latches.idEx, back.exMem, back.cpu.regs);
  }

  /** A fault or a halt moves into ID/EX: nothing follows it. */
  lemma LastMovePreserves(a: Arch, p: Positions, m: Machine, back: BackHalf, predict: Prediction)
    requires Inv(a, p, m) && Live(a, p.id) && Good(a, p.ex) && BackHalfFacts(a, p, m, back)
    requires !Mispredicted(a, p, m.latches.idEx) && !IsLoadUse(m.latches.ifId, m.latches.idEx)
    requires p.next == p.id + 1 && !Live(a, p.next)
    ensures Inv(a, NextPositions(a, p, m), RunFrontHalf(predict, back, m.latches))
  {
    hide Live, EventAt, Step, MemWbSlot, ExMemSlot, IdExHolds, LoadUseFree, HaltInFlight, IsLoadUse, IdExSlot,
         FetchedAt, WordStands, Decoded, CpuMatches, DecodeStep, TransfersControl, CarriesOver;
    var ifId := m.latches.ifId;
    MovedIntoIdEx(a, p, m, back, NextPositions(a, p, m));
    IdCarriesOver(After(a, p.id), ifId, back.cpu.regs);
    TransfersRetire(After(a, p.id), ifId);
    if Good(a, p.next) {
      StraightOn(After(a, p.id), ifId);
    }
    AssembleInvariant(a, p, m, back, predict, NextPositions(a, p, m));
  }

  /** Anything else moves into ID/EX, and fetch goes on where it was predicted to. */
  lemma MovePreserves(a: Arch, p: Positions, m: Machine, back: BackHalf, predict: Prediction)
    requires FetchFresh(a, p, m) && Inv(a, p, m) && Good(a, p.ex) && BackHalfFacts(a, p, m, back)
    requires !Mispredicted(a, p, m.latches.idEx) && !IsLoadUse(m.latches.ifId, m.latches.idEx)
    requires p.next == p.id + 1 && Live(a, p.id) && Live(a, p.next)
    ensures Inv(a, NextPositions(a, p, m), RunFrontHalf(predict, back, m.latches))
  {
    hide Live, EventAt, Step, MemWbSlot, ExMemSlot, IdExHolds, LoadUseFree, HaltInFlight, IsLoadUse, IdExSlot,
         FetchedAt, WordStands, Decoded, DecodeStep, TransfersControl, CarriesOver;
    var ifId := m.latches.ifId;
    LiveAt(a, p.next, p.id);
    MovedIntoIdEx(a, p, m, back, NextPositions(a, p, m));
    IdCarriesOver(After(a, p.id), ifId, back.cpu.regs);
    NoHaltInFlight(a, p, m);
    if !MispredictedInIfId(a, p, ifId) {
      if !TransfersControl(Decoded(After(a, p.id))) {
        StraightOn(After(a, p.id), ifId);
      }
      FetchesEntry(a, p, back.cpu, predict, p.next);
    }
    AssembleInvariant(a, p, m, back, predict, NextPositions(a, p, m));
  }

  lemma MispredictedIsLive(a: Arch, p: Positions, m: Machine)
    requires Inv(a, p, m) && Good(a, p.id) && Good(a, p.ex) && Mispredicted(a, p, m.latches.idEx)
    ensures Live(a, p.id)
  {
    hide Live, EventAt, After, MemWbSlot, ExMemSlot, LoadUseFree, FetchSlot, CpuMatches, Mispredicted, Decoded;
    MispredictedTransfers(a, p, m.latches.idEx);
    IdExInSlot(a, p, m);
    IdExTransfersRetire(After(a, p.ex), m.latches.idEx, m.cpu.regs);
  }

  lemma MispredictedTransfers(a: Arch, p: Positions, idEx: IdEx)
    ensures Mispredicted(a, p, idEx) ==> idEx.valid && (idEx.control.branch || idEx.control.jump)
  {
    hide After;
  }

  lemma IdExTransfersRetire(b: Arch, idEx: IdEx, regs: RegFile)
    requires IdExHolds(idEx, b, regs) && idEx.valid
    ensures idEx.control.branch || idEx.control.jump ==> EventAt(b).Retire?
  {
    hide DecodeInstruction, FetchWord;
    DecodedIsWellControlled(b);
    EventsAndControl(b, Decoded(b));
    IdExReads(b, idEx, regs);
  }

  lemma ShadowPreserves(a: Arch, p: Positions, m: Machine, back: BackHalf, predict: Prediction)
    requires Inv(a, p, m) && Good(a, p.ex) && BackHalfFacts(a, p, m, back) && !Good(a, p.id)
    ensures Inv(a, NextPositions(a, p, m), RunFrontHalf(predict, back, m.latches))
  {
    hide Inv, Good, Mispredicted, IsLoadUse, RunFrontHalf, BackHalfMatches, CarriesOver, IdExSlot, FetchSlot;
    CutsAreConsecutive(a, p, m);
    AssembleInvariant(a, p, m, back, predict, NextPositions(a, p, m));
  }

  /** One cycle, with any prediction, takes the invariant to the next cuts, unless a faulting access throws. */
  lemma CyclePreserves(a: Arch, p: Positions, m: Machine, predict: Prediction)
    requires FetchFresh(a, p, m) && Inv(a, p, m) && !m.cpu.halted
    ensures Cycle(predict, m).Ticked? ==>
              Good(a, p.ex) && Inv(a, NextPositions(a, p, m), Cycle(predict, m).machine)
    ensures Cycle(predict, m).Thrown? ==>
              && p.ex == p.mem + 1 && Live(a, p.mem) && EventAt(After(a, p.mem)).Fault?
              && CpuMatches(a, p.mem, p.mem, Cycle(predict, m).machine.cpu)
  {
    hide FetchFresh, Live, EventAt, MemWbSlot, HaltsAt, RunBackHalf, RunFrontHalf, NextPositions, BackHalfFacts,
         AccessThrows, Mispredicted, IsLoadUse, After, IdExHolds, IfIdHolds, ExMemHolds, LoadUseFree, Good,
         WritebackStep;
    if AccessThrows(|m.cpu.memory|, m.latches.exMem) {
      ThrowIsPrecise(a, p, m);
    } else {
      ExecutingIsGood(a, p, m);
      BackHalfPreserves(a, p, m);
      var back := RunBackHalf(m.cpu, m.latches);
      if !Good(a, p.id) {
        ShadowPreserves(a, p, m, back, predict);
      } else if Mispredicted(a, p, m.latches.idEx) {
        MispredictedIsLive(a, p, m);
        FlushPreserves(a, p, m, back, predict);
      } else {
        OnPathPreserves(a, p, m, back, predict);
      }
    }
  }

  lemma OnPathPreserves(a: Arch, p: Positions, m: Machine, back: BackHalf, predict: Prediction)
    requires FetchFresh(a, p, m) && Inv(a, p, m) && !m.cpu.halted && Good(a, p.id)
    requires Good(a, p.ex) && BackHalfFacts(a, p, m, back) && !Mispredicted(a, p, m.latches.idEx)
    ensures Inv(a, NextPositions(a, p, m), RunFrontHalf(predict, back, m.latches))
  {
    hide FetchFresh, Live, Inv, EventAt, RunFrontHalf, NextPositions, BackHalfFacts, Mispredicted, IsLoadUse, After,
         Good;
    FetchSlotCases(a, p, m);
    if IsLoadUse(m.latches.ifId, m.latches.idEx) {
      StallPreserves(a, p, m, back, predict);
    } else if p.next == p.id {
      WaitPreserves(a, p, m, back, predict);
    } else if !Live(a, p.next) {
      LastMovePreserves(a, p, m, back, predict);
    } else {
      MovePreserves(a, p, m, back, predict);
    }
  }

  lemma FetchSlotCases(a: Arch, p: Positions, m: Machine)
    requires Inv(a, p, m) && Good(a, p.id) && !Mispredicted(a, p, m.latches.idEx)
    ensures Consecutive(p)
    ensures p.next == p.id + 1 ==> Live(a, p.id)
    ensures IsLoadUse(m.latches.ifId, m.latches.idEx) ==> Live(a, p.id)
  {
    hide Live, EventAt, After, MemWbSlot, ExMemSlot, IdExSlot, CpuMatches, Good, DecodeInstruction, DependsOn,
         SourcesOf, IfIdHolds, Mispredicted;
  }

  /** When MEM throws, WB has done its part of the cycle and nothing else has happened. */
  lemma ThrowIsPrecise(a: Arch, p: Positions, m: Machine)
    requires Inv(a, p, m) && !m.cpu.halted && AccessThrows(|m.cpu.memory|, m.latches.exMem)
    ensures p.ex == p.mem + 1 && Live(a, p.mem) && EventAt(After(a, p.mem)).Fault?
    ensures CpuMatches(a, p.mem, p.mem, WritebackStep(m.cpu, m.latches.memWb))
  {
    hide Live, EventAt, Step, ExMemHolds, MemWbHolds, IdExSlot, FetchSlot, WritebackValue, WriteReg, Good;
    assert p.ex == p.mem + 1;
    MemThrowsOnFault(After(a, p.mem), m.latches.exMem);
    hide AccessThrows;
    if p.mem == p.wb + 1 {
      WbAgrees(After(a, p.wb), m.latches.memWb);
    }
    WbKeepsMemory(a, p, m);
  }

  lemma WbKeepsMemory(a: Arch, p: Positions, m: Machine)
    ensures var cpu := WritebackStep(m.cpu, m.latches.memWb);
            cpu.memory == m.cpu.memory && cpu.writes == m.cpu.writes
  {
    hide RegsAfterWriteback;
  }
}
