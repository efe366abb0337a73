/**
 * When a latch holds the instruction at a state of the reference machine, and that each stage hands the instruction
 * on: one lemma per stage. Nothing here looks inside the decoder, the ALU or the ISA step.
 */
module LatchInvariants {
  import opened Words
  import opened Memory
  import opened PipelineRegisters
  import opened Instruction
  import opened CpuState
  import opened Forwarding
  import opened Stages
  import opened Isa
  import opened Correspondence

  /** Where fetch goes on behind the instruction at `a`: straight on, unless it is a branch predicted as taken. */
  function PathOf(a: Arch, taken: bool): Word {
    if Decoded(a).control.branch && taken then Plus(a.pc, Decoded(a).immediate) else PlusFour(a.pc)
  }

  /** IF/ID holds the instruction at `a`, and fetch has gone on where it was predicted to. */
  ghost predicate IfIdHolds(ifId: IfId, a: Arch) {
    && !EventAt(a).Stuck?
    && ifId.valid && ifId.pc == a.pc && ifId.instruction == FetchWord(a)
    && ifId.predictedNextPc == PathOf(a, ifId.predictedTaken)
  }

  /** ID/EX holds the instruction at `a` with operands read from `regs`, or a bubble if it is no instruction. */
  ghost predicate IdExHolds(idEx: IdEx, a: Arch, regs: RegFile) {
    match EventAt(a)
    case Stuck => false
    case Skip => idEx == EMPTY_ID_EX
    case Retire | Halt | Fault =>
      && idEx == InIdEx(a, Decoded(a), idEx.predictedTaken, idEx.predictedNextPc, regs)
      && idEx.predictedNextPc == PathOf(a, idEx.predictedTaken)
  }

  ghost predicate ExMemHolds(exMem: ExMem, a: Arch) {
    match EventAt(a)
    case Stuck => false
    case Skip => exMem == EMPTY_EX_MEM
    case Retire | Halt | Fault => SameUpToStoreValue(exMem, InExMem(a, Decoded(a)))
  }

  ghost predicate MemWbHolds(memWb: MemWb, a: Arch) {
    match EventAt(a)
    case Stuck | Fault => false
    case Skip => memWb == EMPTY_MEM_WB
    case Retire | Halt =>
      && !AccessThrows(|a.memory|, InExMem(a, Decoded(a)))
      && memWb == InMemWb(a, Decoded(a))
  }

  lemma DecodedIsWellControlled(a: Arch)
    ensures WellControlled(Decoded(a)) && Decoded(a).raw == FetchWord(a)
  {
    hide FetchWord, DecodeOperation, ControlOf;
    DecodedControl(FetchWord(a));
  }

  predicate TransfersControl(d: DecodedInstruction) {
    d.control.branch || d.control.jump
  }

  /** How the control signals of a fetched word show what will happen to it. */
  lemma EventsAndControl(a: Arch, d: DecodedInstruction)
    requires WellControlled(d) && !EventOf(a, d).Stuck?
    ensures EventOf(a, d).Skip? <==> ClassOf(d.kind).NoClass?
    ensures EventOf(a, d).Halt? <==> d.control.halt
    ensures EventOf(a, d).Fault? ==> d.control.memRead || d.control.memWrite
    ensures TransfersControl(d) ==> EventOf(a, d).Retire?
  {
    hide ClassOf, AluOpOf, ConditionOf, AccessWidthOf, AccessInBounds, InBounds;
  }

  lemma ValidMeansClassified(d: DecodedInstruction)
    ensures d.IsValid() <==> !ClassOf(d.kind).NoClass?
  {
  }

  // WB

  lemma WbAgrees(a: Arch, memWb: MemWb)
    requires MemWbHolds(memWb, a)
    ensures RegsAfterWriteback(a.regs, memWb) == Step(a).regs
    ensures memWb.valid <==> !EventAt(a).Skip?
    ensures memWb.valid && memWb.control.halt <==> EventAt(a).Halt?
  {
    DecodedIsWellControlled(a);
    EventsAndControl(a, Decoded(a));
    if EventAt(a).Retire? {
      WritebackAgrees(a, Decoded(a));
    }
    hide FetchWord, DecodeInstruction, ClassOf, AluOpOf, ConditionOf, AccessWidthOf, AccessInBounds, InBounds,
         NextRegs, NextMemory, NextPc, NextWrites, Resolve, AluResult, ReadMemory, WritebackValue, AccessThrows;
  }

  // MEM

  lemma MemThrowsOnFault(a: Arch, exMem: ExMem)
    requires ExMemHolds(exMem, a)
    ensures AccessThrows(|a.memory|, exMem) <==> EventAt(a).Fault?
  {
    hide FetchWord, DecodeInstruction, ClassOf, AccessInBounds, WellControlled, InBounds, Resolve, AluResult;
    DecodedIsWellControlled(a);
    if !EventAt(a).Skip? {
      FetchedInBounds(a);
      ThrowsAgree(a, Decoded(a));
      hide EventOf;
    }
  }

  lemma FetchedInBounds(a: Arch)
    ensures !EventAt(a).Stuck? ==> InBounds(|a.memory|, a.pc, 4)
  {
    hide Decoded, ClassOf, AccessInBounds, InBounds;
  }

  lemma MemAgrees(a: Arch, exMem: ExMem)
    requires ExMemHolds(exMem, a) && !AccessThrows(|a.memory|, exMem)
    ensures MemWbHolds(MemWbFrom(a.memory, exMem), a)
    ensures MemoryAfterStore(a.memory, exMem) == Step(a).memory
    ensures WritesAfterStore(a.writes, exMem) == Step(a).writes
    ensures exMem.valid <==> !EventAt(a).Skip?
    ensures exMem.valid && exMem.control.halt <==> EventAt(a).Halt?
  {
    hide FetchWord, DecodeInstruction, ClassOf, AluOpOf, ConditionOf, AccessWidthOf, AccessInBounds, InBounds,
         NextRegs, NextMemory, NextPc, NextWrites, Resolve, AluResult, ReadMemory, WriteMemory;
    DecodedIsWellControlled(a);
    MemThrowsOnFault(a, exMem);
    EventsAndControl(a, Decoded(a));
    if EventAt(a).Retire? {
      StoreEffectAgrees(a, Decoded(a));
    }
  }

  // EX

  /** What the instruction in EX/MEM will have done to the register file, and the value EX/MEM can forward. */
  lemma ExMemForwardsResult(a: Arch, exMem: ExMem) returns (value: Word)
    requires ExMemHolds(exMem, a) && !AccessThrows(|a.memory|, exMem)
    ensures Step(a).regs ==
            if exMem.valid && exMem.control.regWrite then WriteReg(a.regs, exMem.rd, value) else a.regs
    ensures exMem.valid && exMem.control.regWrite && !exMem.control.memRead ==> value == ExMemForwardValue(exMem)
  {
    hide FetchWord, DecodeInstruction, ClassOf, AluOpOf, ConditionOf, AccessWidthOf, AccessInBounds, InBounds,
         NextRegs, NextMemory, NextPc, NextWrites, Resolve, AluResult, ReadMemory, WriteMemory, WriteReg;
    MemAgrees(a, exMem);
    var memWb := MemWbFrom(a.memory, exMem);
    WbAgrees(a, memWb);
    value := WritebackValue(memWb);
    DecodedIsWellControlled(a);
    hide Step;
  }

  /** What EX makes of an instruction does not depend on how it was predicted or on the operands ID read. */
  lemma PredictionIsNotData(a: Arch, idEx: IdEx, regs: RegFile, x: Word, y: Word)
    requires idEx == InIdEx(a, Decoded(a), idEx.predictedTaken, idEx.predictedNextPc, regs)
    ensures ExMemFrom(idEx, x, y) == ExMemFrom(InIdEx(a, Decoded(a), false, ZERO, a.regs), x, y)
  {
    hide Decoded, ExecuteAlu, EvaluateBranch, ReadReg, Plus, PlusFour, ClearLowBit;
  }

  lemma ExAgrees(a: Arch, idEx: IdEx, regs: RegFile, v: Word, w: Word)
    requires IdExHolds(idEx, a, regs)
    requires idEx.valid ==> OperandsAgree(Decoded(a), v, w, Rs1(a, Decoded(a)), Rs2(a, Decoded(a)))
    ensures ExMemHolds(ExMemFrom(idEx, v, w), a)
    ensures idEx.valid <==> !EventAt(a).Skip?
    ensures idEx.valid && idEx.control.halt <==> EventAt(a).Halt?
    ensures idEx.valid ==> TransferMatches(a, Decoded(a), Resolve(idEx, v, w))
  {
    hide FetchWord, DecodeInstruction, ClassOf, AluOpOf, ConditionOf, AccessWidthOf, AccessInBounds, InBounds,
         NextPc, Resolve, AluResult, ReadReg, WellControlled, TransferMatches, OperandsAgree;
    DecodedIsWellControlled(a);
    EventsAndControl(a, Decoded(a));
    if idEx.valid {
      var d := Decoded(a);
      UnreadOperandsDoNotMatter(idEx, d, v, w, Rs1(a, d), Rs2(a, d));
      PredictionIsNotData(a, idEx, regs, Rs1(a, d), Rs2(a, d));
      TransferAgrees(a, d, idEx);
    }
  }

  lemma ResolveTransfers(l: IdEx, v: Word, w: Word)
    ensures Resolve(l, v, w).Transfer? <==> l.control.branch || l.control.jump
  {
    hide AluResult, EvaluateBranch, ClearLowBit;
  }

  lemma StepFollowsNextPc(b: Arch, d: DecodedInstruction)
    requires d == Decoded(b) && EventAt(b).Retire?
    ensures Step(b).pc == NextPc(b, d)
  {
    hide Decoded, NextRegs, NextMemory, NextPc, NextWrites, EventOf;
  }

  /** EX redirects fetch exactly when the trace does not go where the transfer was predicted to go. */
  lemma RedirectAgrees(a: Arch, idEx: IdEx, regs: RegFile, v: Word, w: Word)
    requires IdExHolds(idEx, a, regs) && idEx.valid
    requires OperandsAgree(Decoded(a), v, w, Rs1(a, Decoded(a)), Rs2(a, Decoded(a)))
    ensures Redirects(idEx, Resolve(idEx, v, w)) <==>
              (idEx.control.branch || idEx.control.jump) && idEx.predictedNextPc != Step(a).pc
    ensures Redirects(idEx, Resolve(idEx, v, w)) ==> Resolve(idEx, v, w).target == Step(a).pc
    ensures idEx.control.branch ==>
              Resolve(idEx, v, w).Transfer? &&
              Resolve(idEx, v, w).taken == Taken(Decoded(a).kind, Rs1(a, Decoded(a)), Rs2(a, Decoded(a)))
  {
    var d := Decoded(a);
    ExAgrees(a, idEx, regs, v, w);
    ResolveTransfers(idEx, v, w);
    DecodedIsWellControlled(a);
    EventsAndControl(a, d);
    hide DecodeInstruction, FetchWord, ClassOf, AccessInBounds, InBounds, Resolve, Step, NextPc, Rs1, Rs2, Taken,
         ExMemHolds, OperandsAgree, WellControlled;
    if TransfersControl(d) {
      StepFollowsNextPc(a, d);
    }
  }

  // ID

  lemma IdAgrees(a: Arch, ifId: IfId, regs: RegFile)
    requires IfIdHolds(ifId, a)
    ensures IdExHolds(DecodeStep(ifId, regs, false, false), a, regs)
    ensures DecodeStep(ifId, regs, false, false).predictedNextPc ==
            if EventAt(a).Skip? then ZERO else ifId.predictedNextPc
  {
    hide FetchWord, DecodeInstruction, ClassOf, AccessInBounds, InBounds, ReadReg, WellControlled;
    DecodedIsWellControlled(a);
    EventsAndControl(a, Decoded(a));
    ValidMeansClassified(Decoded(a));
  }

  /** Anything but a control transfer is followed by the next instruction in memory order. */
  lemma StraightOn(a: Arch, ifId: IfId)
    requires IfIdHolds(ifId, a) && !EventAt(a).Fault? && !TransfersControl(Decoded(a))
    ensures ifId.predictedNextPc == Step(a).pc
  {
    DecodedIsWellControlled(a);
    EventsAndControl(a, Decoded(a));
    hide FetchWord, DecodeInstruction, AluOpOf, ConditionOf, AccessWidthOf, AccessInBounds, InBounds,
         NextRegs, NextMemory, NextWrites, Taken, Even, Plus, PlusFour, ClassOf;
  }

  lemma TransfersRetire(a: Arch, ifId: IfId)
    requires IfIdHolds(ifId, a)
    ensures TransfersControl(Decoded(a)) ==> EventAt(a).Retire?
  {
    hide DecodeInstruction, FetchWord;
    DecodedIsWellControlled(a);
    EventsAndControl(a, Decoded(a));
  }

  /** ID hands on the prediction and the control signals of what it decodes. */
  lemma IdCarriesOver(a: Arch, ifId: IfId, regs: RegFile)
    requires IfIdHolds(ifId, a)
    ensures var idEx := DecodeStep(ifId, regs, false, false);
            && (idEx.valid && (idEx.control.branch || idEx.control.jump) <==> TransfersControl(Decoded(a)))
            && (TransfersControl(Decoded(a)) ==> idEx.predictedNextPc == ifId.predictedNextPc)
            && (idEx.valid && idEx.control.halt <==> EventAt(a).Halt?)
  {
    hide FetchWord, DecodeInstruction, ClassOf, AccessInBounds, InBounds, ReadReg, WellControlled, DecodeStep;
    IdAgrees(a, ifId, regs);
    IdExHaltSignal(a, DecodeStep(ifId, regs, false, false), regs);
    DecodedIsWellControlled(a);
    EventsAndControl(a, Decoded(a));
  }

  // Halts

  lemma IdExHaltSignal(a: Arch, idEx: IdEx, regs: RegFile)
    requires IdExHolds(idEx, a, regs)
    ensures idEx.valid && idEx.control.halt <==> EventAt(a).Halt?
  {
    hide FetchWord, DecodeInstruction, ClassOf, AccessInBounds, InBounds, ReadReg, WellControlled, Resolve, AluResult,
         AccessThrows, ReadMemory;
    DecodedIsWellControlled(a);
    EventsAndControl(a, Decoded(a));
    hide EventOf;
  }

  lemma ExMemHaltSignal(a: Arch, exMem: ExMem)
    requires ExMemHolds(exMem, a)
    ensures exMem.valid && exMem.control.halt <==> EventAt(a).Halt?
  {
    hide FetchWord, DecodeInstruction, ClassOf, AccessInBounds, InBounds, ReadReg, WellControlled, Resolve, AluResult,
         AccessThrows, ReadMemory;
    DecodedIsWellControlled(a);
    EventsAndControl(a, Decoded(a));
    hide EventOf;
  }

  lemma MemWbHaltSignal(a: Arch, memWb: MemWb)
    requires MemWbHolds(memWb, a)
    ensures memWb.valid && memWb.control.halt <==> EventAt(a).Halt?
  {
    hide FetchWord, DecodeInstruction, ClassOf, AccessInBounds, InBounds, ReadReg, WellControlled, Resolve, AluResult,
         AccessThrows, ReadMemory;
    DecodedIsWellControlled(a);
    EventsAndControl(a, Decoded(a));
    hide EventOf;
  }

  // IF

  lemma FetchReadsTheWord(memory: seq<Byte>, pc: Word)
    requires InBounds(|memory|, pc, 4)
    ensures Word(ReadU32(memory, pc)) == FetchFrom(memory, pc)
  {
    hide FromBytes, ReadU32, Index;
    ReadU32IsLittleEndian(memory, pc);
  }

  lemma IfAgrees(a: Arch, cpu: CpuState, predict: Prediction)
    requires cpu.pc == a.pc && |cpu.memory| == |a.memory|
    requires FetchFrom(cpu.memory, a.pc) == FetchWord(a)
    ensures if EventAt(a).Stuck? then FetchedAt(cpu, predict) == EMPTY_IF_ID
            else IfIdHolds(FetchedAt(cpu, predict), a)
  {
    hide DecodeInstruction, ClassOf, AccessInBounds, ReadU32, WellControlled, FetchFrom, InBounds;
    if InBounds(|cpu.memory|, cpu.pc, 4) {
      FetchReadsTheWord(cpu.memory, cpu.pc);
    }
  }
}
