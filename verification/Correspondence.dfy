/**
 * What each latch holds for an instruction of the reference machine, and how the stages turn one into the next:
 * the link between the datapath and one step of the ISA.
 */
module Correspondence {
  import opened Words
  import opened Memory
  import opened PipelineRegisters
  import opened Instruction
  import opened Patterns
  import opened Forwarding
  import opened Hazard
  import opened Stages
  import opened Isa
  import opened Datapath

  predicate WellControlled(d: DecodedInstruction) {
    d.control == ControlOf(d.kind)
  }

  /** ID/EX holding the instruction at `a`, with operands read from `regs`. */
  function InIdEx(a: Arch, d: DecodedInstruction, predictedTaken: bool, predictedNextPc: Word, regs: RegFile): IdEx {
    IdExFrom(IfId(true, a.pc, d.raw, predictedTaken, predictedNextPc), d, regs)
  }

  /** EX/MEM holding the instruction at `a`, computed from its true operands. */
  function InExMem(a: Arch, d: DecodedInstruction): ExMem {
    ExMemFrom(InIdEx(a, d, false, ZERO, a.regs), Rs1(a, d), Rs2(a, d))
  }

  function InMemWb(a: Arch, d: DecodedInstruction): MemWb
    requires !AccessThrows(|a.memory|, InExMem(a, d))
  {
    MemWbFrom(a.memory, InExMem(a, d))
  }

  /** Only a store uses the store value of its latch. */
  predicate SameUpToStoreValue(held: ExMem, expected: ExMem) {
    && held.(storeValue := ZERO) == expected.(storeValue := ZERO)
    && (held.control.memWrite ==> held.storeValue == expected.storeValue)
  }

  /** Operand values that agree with `x` and `y` wherever the instruction reads them. */
  predicate OperandsAgree(d: DecodedInstruction, v: Word, w: Word, x: Word, y: Word) {
    && (ReadsRs1(d.kind) ==> v == x)
    && (ReadsRs2(d.kind) ==> w == y)
  }

  lemma AluIgnoresUnreadOperands(l: IdEx, d: DecodedInstruction, v: Word, w: Word, x: Word, y: Word)
    requires WellControlled(d) && l.control == d.control
    requires OperandsAgree(d, v, w, x, y)
    ensures AluResult(l, v, w) == AluResult(l, x, y)
  {
    hide ClassOf, AluOpOf, ConditionOf, AccessWidthOf;
    if l.control.aluOp.AluNone? {
    } else {
      hide ExecuteAlu;
    }
  }

  lemma TransferIgnoresUnreadOperands(l: IdEx, d: DecodedInstruction, v: Word, w: Word, x: Word, y: Word)
    requires WellControlled(d) && l.control == d.control
    requires OperandsAgree(d, v, w, x, y)
    ensures Resolve(l, v, w) == Resolve(l, x, y)
  {
    hide ClassOf, AluOpOf, ConditionOf, AccessWidthOf, EvaluateBranch, AluResult, Plus, PlusFour, ClearLowBit;
    AluIgnoresUnreadOperands(l, d, v, w, x, y);
  }

  /** EX computes the same latch and the same transfer from operands that agree wherever they are read. */
  lemma UnreadOperandsDoNotMatter(l: IdEx, d: DecodedInstruction, v: Word, w: Word, x: Word, y: Word)
    requires WellControlled(d) && l.control == d.control
    requires OperandsAgree(d, v, w, x, y)
    ensures Resolve(l, v, w) == Resolve(l, x, y)
    ensures SameUpToStoreValue(ExMemFrom(l, v, w), ExMemFrom(l, x, y))
  {
    AluIgnoresUnreadOperands(l, d, v, w, x, y);
    TransferIgnoresUnreadOperands(l, d, v, w, x, y);
    hide ClassOf, AluOpOf, ConditionOf, AccessWidthOf, AluResult, Resolve;
  }

  lemma LowBitCleared(target: Word)
    ensures ClearLowBit(target) == Even(target)
  {
  }

  predicate TransferMatches(a: Arch, d: DecodedInstruction, resolution: Resolution) {
    match resolution
    case Transfer(taken, target) =>
      && target == NextPc(a, d)
      && (d.control.branch ==> taken == Taken(d.kind, Rs1(a, d), Rs2(a, d)))
    case NoTransfer => NextPc(a, d) == PlusFour(a.pc) && !d.control.branch && !d.control.jump
  }

  lemma BranchTransferAgrees(a: Arch, d: DecodedInstruction, l: IdEx)
    requires WellControlled(d) && l.control == d.control && l.pc == a.pc && l.immediate == d.immediate
    requires ClassOf(d.kind).Branch?
    ensures TransferMatches(a, d, Resolve(l, Rs1(a, d), Rs2(a, d)))
  {
    BranchAgrees(d.kind, Rs1(a, d), Rs2(a, d));
    hide ClassOf, AluOpOf, ConditionOf, AccessWidthOf, EvaluateBranch, Taken, Plus, PlusFour, ReadReg, AluResult;
  }

  lemma JumpTransferAgrees(a: Arch, d: DecodedInstruction, l: IdEx)
    requires WellControlled(d) && l.control == d.control && l.pc == a.pc && l.immediate == d.immediate
    requires ClassOf(d.kind).Jump? || ClassOf(d.kind).JumpRegister?
    ensures TransferMatches(a, d, Resolve(l, Rs1(a, d), Rs2(a, d)))
  {
    hide ClassOf, AluOpOf, ConditionOf, AccessWidthOf, Plus, PlusFour, ReadReg, ClearLowBit, Even, Taken;
    LowBitCleared(Plus(Rs1(a, d), d.immediate));
  }

  /** What EX resolves from the true operands is where the ISA goes next. */
  lemma TransferAgrees(a: Arch, d: DecodedInstruction, l: IdEx)
    requires WellControlled(d) && l.control == d.control && l.pc == a.pc && l.immediate == d.immediate
    ensures TransferMatches(a, d, Resolve(l, Rs1(a, d), Rs2(a, d)))
  {
    if ClassOf(d.kind).Branch? {
      BranchTransferAgrees(a, d, l);
    } else if ClassOf(d.kind).Jump? || ClassOf(d.kind).JumpRegister? {
      JumpTransferAgrees(a, d, l);
    } else {
      hide ClassOf, AluOpOf, ConditionOf, AccessWidthOf, AluResult, EvaluateBranch, Taken, Plus, PlusFour, Even;
    }
  }

  /** What ID/EX holds of a valid word: its fields, by their bits, its format and its registers' values. */
  lemma IdExContents(ifId: IfId, regs: RegFile)
    requires ifId.valid && DecodeInstruction(ifId.instruction).IsValid()
    ensures var l, w, d := DecodeStep(ifId, regs, false, false), ifId.instruction, DecodeInstruction(ifId.instruction);
            && l.valid && l.pc == ifId.pc && l.instruction == w && l.immediate == d.immediate && l.control == d.control
            && l.predictedTaken == ifId.predictedTaken && l.predictedNextPc == ifId.predictedNextPc
            && l.rd.number as bv32 == (w.bits >> 7) & 0x1F && l.funct3 as bv32 == (w.bits >> 12) & 7
            && l.rs1.number as bv32 == (w.bits >> 15) & 0x1F && l.rs2.number as bv32 == (w.bits >> 20) & 0x1F
            && l.funct7 as bv32 == w.bits >> 25 && l.format == FormatOfOpcode(OpcodeField(w.bits))
            && l.rs1Value == ReadReg(regs, l.rs1) && l.rs2Value == ReadReg(regs, l.rs2)
  {
    hide DecodeInstruction, ReadReg, FormatOfOpcode, OpcodeField;
    DecodedFields(ifId.instruction);
    DecodedFormat(ifId.instruction);
  }

  /** What EX/MEM holds of the instruction at `a`, told by the ISA. */
  lemma ExMemContents(a: Arch, d: DecodedInstruction)
    requires WellControlled(d)
    ensures var e, group := InExMem(a, d), ClassOf(d.kind);
            && e.valid && e.pc == a.pc && e.instruction == d.raw && e.rd == d.rd && e.control == d.control
            && e.storeValue == Rs2(a, d) && e.immediate == d.immediate && e.pcPlus4.bits == a.pc.bits + 4
            && (e.branchTaken <==>
                  group.Jump? || group.JumpRegister? || (group.Branch? && Taken(d.kind, Rs1(a, d), Rs2(a, d))))
            && e.branchTarget == if group.Jump? || group.JumpRegister? || group.Branch? then NextPc(a, d) else ZERO
  {
    var l := InIdEx(a, d, false, ZERO, a.regs);
    TransferAgrees(a, d, l);
    JumpsAreTaken(l, Rs1(a, d), Rs2(a, d));
    hide ClassOf, AluOpOf, ConditionOf, AccessWidthOf, AluResult, Resolve, Taken, NextPc, ReadReg;
  }

  lemma JumpsAreTaken(l: IdEx, v: Word, w: Word)
    ensures var resolution := Resolve(l, v, w);
            && (resolution.Transfer? <==> l.control.branch || l.control.jump)
            && (!l.control.branch && l.control.jump ==> resolution.taken)
  {
    hide AluResult, EvaluateBranch, ClearLowBit;
  }

  /** What MEM/WB holds of it. */
  lemma MemWbContents(a: Arch, d: DecodedInstruction)
    requires WellControlled(d) && !AccessThrows(|a.memory|, InExMem(a, d))
    ensures var e, w := InExMem(a, d), InMemWb(a, d);
            && w.valid && w.pc == a.pc && w.instruction == d.raw && w.rd == d.rd && w.control == d.control
            && w.aluResult == e.aluResult && w.immediate == d.immediate && w.pcPlus4.bits == a.pc.bits + 4
            && (!ClassOf(d.kind).Load? ==> w.memoryData == ZERO)
  {
    ExMemContents(a, d);
    hide ClassOf, AluOpOf, ConditionOf, AccessWidthOf, InExMem, ReadMemory;
  }

  /** The address MEM uses for a load or store is the effective address. */
  lemma AddressAgrees(a: Arch, d: DecodedInstruction)
    requires WellControlled(d) && (ClassOf(d.kind).Load? || ClassOf(d.kind).Store?)
    ensures InExMem(a, d).aluResult == EffectiveAddress(a, d)
  {
    hide ClassOf, AluOpOf, ConditionOf, AccessWidthOf, Resolve, Plus, PlusFour, ReadReg;
  }

  /** MEM throws for exactly the instructions that fault. */
  lemma ThrowsAgree(a: Arch, d: DecodedInstruction)
    requires WellControlled(d) && InBounds(|a.memory|, a.pc, 4)
    ensures AccessThrows(|a.memory|, InExMem(a, d)) <==> EventOf(a, d).Fault?
  {
    if ClassOf(d.kind).Load? || ClassOf(d.kind).Store? {
      AddressAgrees(a, d);
      WidthsAgree(d.kind);
    }
    hide ClassOf, AluOpOf, ConditionOf, AccessWidthOf, EffectiveAddress, Resolve, AluResult, AccessBytes, Index;
  }

  /** The memory and the write log MEM leaves are the ISA's. */
  lemma StoreEffectAgrees(a: Arch, d: DecodedInstruction)
    requires WellControlled(d) && EventOf(a, d).Retire?
    requires !AccessThrows(|a.memory|, InExMem(a, d))
    ensures MemoryAfterStore(a.memory, InExMem(a, d)) == NextMemory(a, d)
    ensures WritesAfterStore(a.writes, InExMem(a, d)) == NextWrites(a, d)
  {
    if ClassOf(d.kind).Store? {
      AddressAgrees(a, d);
      StoreAgrees(a.memory, EffectiveAddress(a, d), Rs2(a, d), d.kind);
      WidthsAgree(d.kind);
    }
    hide ClassOf, AluOpOf, ConditionOf, AccessWidthOf, EffectiveAddress, Resolve, AluResult, AccessBytes, Index,
         Splice, ToBytes, WriteMemory, ReadReg;
  }

  predicate WritesResult(a: Arch, d: DecodedInstruction)
    requires EventOf(a, d).Retire?
    requires !AccessThrows(|a.memory|, InExMem(a, d))
  {
    match Result(a, d)
    case Some(value) => InMemWb(a, d).control.regWrite && WritebackValue(InMemWb(a, d)) == value
    case None => !InMemWb(a, d).control.regWrite
  }

  lemma ArithmeticWriteback(a: Arch, d: DecodedInstruction)
    requires WellControlled(d) && EventOf(a, d).Retire?
    requires !AccessThrows(|a.memory|, InExMem(a, d))
    requires ClassOf(d.kind).RegAlu? || ClassOf(d.kind).ImmAlu?
    ensures WritesResult(a, d)
  {
    AluAgrees(d.kind, Rs1(a, d), if ClassOf(d.kind).RegAlu? then Rs2(a, d) else d.immediate);
    hide ClassOf, AluOpOf, ConditionOf, AccessWidthOf, ExecuteAlu, Compute, ReadReg, Resolve, PlusFour, ReadMemory;
  }

  lemma LoadedInMemWb(a: Arch, d: DecodedInstruction)
    requires WellControlled(d) && ClassOf(d.kind).Load? && !AccessThrows(|a.memory|, InExMem(a, d))
    ensures InMemWb(a, d).control.regWrite
    ensures WritebackValue(InMemWb(a, d)) == ReadMemory(a.memory, EffectiveAddress(a, d), ControlOf(d.kind))
  {
    AddressAgrees(a, d);
    hide ClassOf, AluOpOf, ConditionOf, AccessWidthOf, AluResult, ReadReg, Resolve, PlusFour, ReadMemory,
         EffectiveAddress, InBounds;
  }

  lemma LoadWriteback(a: Arch, d: DecodedInstruction)
    requires WellControlled(d) && EventOf(a, d).Retire?
    requires !AccessThrows(|a.memory|, InExMem(a, d))
    requires ClassOf(d.kind).Load?
    ensures WritesResult(a, d)
  {
    LoadedInMemWb(a, d);
    LoadAgrees(a.memory, EffectiveAddress(a, d), d.kind);
    hide ClassOf, ControlOf, ReadMemory, InMemWb, InExMem, WritebackValue, EffectiveAddress, AccessBytes, Index,
         FromBytes, Extended;
  }

  lemma OtherWriteback(a: Arch, d: DecodedInstruction)
    requires WellControlled(d) && EventOf(a, d).Retire?
    requires !AccessThrows(|a.memory|, InExMem(a, d))
    requires !ClassOf(d.kind).RegAlu? && !ClassOf(d.kind).ImmAlu? && !ClassOf(d.kind).Load?
    ensures WritesResult(a, d)
  {
    hide ClassOf, AluOpOf, ConditionOf, AccessWidthOf, ReadReg, Resolve, Plus, PlusFour, ReadMemory,
         EffectiveAddress, AccessBytes, Index;
  }

  /** The register file WB leaves is the ISA's. */
  lemma WritebackAgrees(a: Arch, d: DecodedInstruction)
    requires WellControlled(d) && EventOf(a, d).Retire?
    requires !AccessThrows(|a.memory|, InExMem(a, d))
    ensures RegsAfterWriteback(a.regs, InMemWb(a, d)) == NextRegs(a, d)
  {
    if ClassOf(d.kind).RegAlu? || ClassOf(d.kind).ImmAlu? {
      ArithmeticWriteback(a, d);
    } else if ClassOf(d.kind).Load? {
      LoadWriteback(a, d);
    } else {
      OtherWriteback(a, d);
    }
    hide ClassOf, Result, WritebackValue, WriteReg, AccessThrows, Resolve, AluResult, ReadMemory, EventOf, ReadReg,
         PlusFour;
  }

  lemma SameUpToOperands(l1: IdEx, l2: IdEx, v: Word, w: Word)
    requires l1.(rs1Value := ZERO, rs2Value := ZERO) == l2.(rs1Value := ZERO, rs2Value := ZERO)
    ensures Resolve(l1, v, w) == Resolve(l2, v, w) && ExMemFrom(l1, v, w) == ExMemFrom(l2, v, w)
  {
    hide ExecuteAlu, EvaluateBranch, Plus, PlusFour, ClearLowBit;
  }

  lemma StoreValueMatters(memory: seq<Byte>, held: ExMem, expected: ExMem)
    requires SameUpToStoreValue(held, expected)
    ensures AccessThrows(|memory|, held) <==> AccessThrows(|memory|, expected)
    ensures !AccessThrows(|memory|, held) ==>
              && MemWbFrom(memory, held) == MemWbFrom(memory, expected)
              && MemoryAfterStore(memory, held) == MemoryAfterStore(memory, expected)
  {
    hide InBounds, ReadMemory, WriteMemory;
  }

  /**
   * The operand-use table is adequate for every word: register files that agree on the registers it marks as used
   * give the same transfer of control, the same access, the same write to memory and the same value for WB.
   */
  lemma OperandUseIsAdequate(ifId: IfId, memory: seq<Byte>, r1: RegFile, r2: RegFile)
    requires var d, sources := DecodeInstruction(ifId.instruction), SourcesOf(DecodeInstruction(ifId.instruction));
             && (sources.usesRs1 ==> ReadReg(r1, d.rs1) == ReadReg(r2, d.rs1))
             && (sources.usesRs2 ==> ReadReg(r1, d.rs2) == ReadReg(r2, d.rs2))
    ensures var d := DecodeInstruction(ifId.instruction);
            var l1, l2 := IdExFrom(ifId, d, r1), IdExFrom(ifId, d, r2);
            var e1, e2 := ExMemFrom(l1, l1.rs1Value, l1.rs2Value), ExMemFrom(l2, l2.rs1Value, l2.rs2Value);
            && Resolve(l1, l1.rs1Value, l1.rs2Value) == Resolve(l2, l2.rs1Value, l2.rs2Value)
            && (AccessThrows(|memory|, e1) <==> AccessThrows(|memory|, e2))
            && (!AccessThrows(|memory|, e1) ==>
                  && MemoryAfterStore(memory, e1) == MemoryAfterStore(memory, e2)
                  && MemWbFrom(memory, e1) == MemWbFrom(memory, e2))
  {
    hide DecodeInstruction, ReadsRs1, ReadsRs2, ExMemFrom, Resolve, AccessThrows, MemoryAfterStore, MemWbFrom,
         SameUpToStoreValue, WellControlled;
    var d := DecodeInstruction(ifId.instruction);
    var l1, l2 := IdExFrom(ifId, d, r1), IdExFrom(ifId, d, r2);
    DecodedWell(ifId.instruction);
    UnreadOperandsDoNotMatter(l2, d, l1.rs1Value, l1.rs2Value, l2.rs1Value, l2.rs2Value);
    SameUpToOperands(l1, l2, l1.rs1Value, l1.rs2Value);
    StoreValueMatters(memory, ExMemFrom(l1, l1.rs1Value, l1.rs2Value), ExMemFrom(l2, l2.rs1Value, l2.rs2Value));
  }

  lemma DecodedWell(instruction: Word)
    ensures WellControlled(DecodeInstruction(instruction))
  {
    hide DecodeOperation, ControlOf;
    DecodedControl(instruction);
  }
}
