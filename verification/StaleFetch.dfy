/**
 * Self-modifying code. Stores that keep clear of the two instructions after them are enough for the refinement; a
 * store into either of the two can make the pipeline fetch a word that the ISA would not.
 */
module StaleFetch {
  import opened Words
  import opened Memory
  import opened BranchPredictor
  import opened PipelineRegisters
  import opened Instruction
  import opened CpuState
  import opened Forwarding
  import opened Hazard
  import opened Stages
  import opened Isa
  import opened Refinement
  import opened Accounting
  import opened FetchWindow
  import opened MachineLaws
  import opened Runs
  import opened Timing
  import opened ExactFetch
  import opened Encoding

  /** Entry `i` stores into none of the four bytes of the instruction at `pc`. */
  ghost predicate KeepsClearOf(b: Arch, pc: Word) {
    StoresTo(b) ==>
      || Index(EffectiveAddress(b, Decoded(b))) + AccessBytes(Decoded(b).kind) <= Index(pc)
      || Index(pc) + 4 <= Index(EffectiveAddress(b, Decoded(b)))
  }

  predicate StoresTo(b: Arch) {
    EventAt(b).Retire? && ClassOf(Decoded(b).kind).Store?
  }

  /**
   * No store the machine performs overwrites the next instruction it reaches, nor the one after that unless fetch is
   * sure to be held up before it.
   */
  ghost predicate StoresKeepClear(a: Arch) {
    forall i: nat, j: nat | Live(a, j) && (i + 1 == j || (i + 2 == j && !HeldUp(a, JumpsAwayIn(a), j))) ::
      KeepsClearOf(After(a, i), After(a, j).pc)
  }

  lemma SpliceKeepsSlice(memory: seq<Byte>, address: nat, bytes: seq<Byte>, low: nat, high: nat)
    requires address + |bytes| <= |memory| && low <= high <= |memory|
    requires address + |bytes| <= low || high <= address
    ensures Splice(memory, address, bytes)[low..high] == memory[low..high]
  {
  }

  lemma StepKeepsWord(b: Arch, pc: Word)
    requires KeepsClearOf(b, pc)
    ensures FetchFrom(Step(b).memory, pc) == FetchFrom(b.memory, pc)
  {
    hide DecodeInstruction, FetchWord, Index, FromBytes, ToBytes, NextRegs, NextPc, NextWrites, AccessBytes,
         EffectiveAddress, ClassOf;
    StepKeepsMemorySize(b);
    if StoresTo(b) && InBounds(|b.memory|, pc, 4) {
      var d := Decoded(b);
      SpliceKeepsSlice(b.memory, Index(EffectiveAddress(b, d)), ToBytes(Rs2(b, d).bits, AccessBytes(d.kind)),
                       Index(pc), Index(pc) + 4);
    }
    hide Splice;
  }

  lemma {:induction false} StaysInMemory(a: Arch, n: nat)
    requires a.code.InMemory?
    ensures After(a, n).code.InMemory?
  {
    hide Decoded, EventOf, NextRegs, NextMemory, NextPc, NextWrites;
    if n > 0 {
      StaysInMemory(a, n - 1);
    }
  }

  /** Behind whichever entries EX redirects fetch, as long as the jumps away are among them. */
  lemma KeptClear(a: Arch, redirects: nat -> bool, n: nat)
    requires a.code.InMemory? && StoresKeepClear(a) && Live(a, n)
    requires HeldUp(a, JumpsAwayIn(a), n) ==> HeldUp(a, redirects, n)
    ensures WordStands(a, n, FetchCut(a, redirects, n))
  {
    hide Live, FetchFrom, KeepsClearOf, Step, HeldUp;
    StaysInMemory(a, n);
    var pc := After(a, n).pc;
    if n > 0 {
      assert KeepsClearOf(After(a, n - 1), pc);
      StepKeepsWord(After(a, n - 1), pc);
      if n > 1 && !HeldUp(a, redirects, n) {
        assert KeepsClearOf(After(a, n - 2), pc);
        StepKeepsWord(After(a, n - 2), pc);
      }
    }
  }

  lemma HeldUpByJump(a: Arch, n: nat)
    ensures HeldUp(a, JumpsAwayIn(a), n) ==> HeldUp(a, MayRedirectIn(a), n)
  {
    hide After, JumpsAway, MayRedirect, LoadUse;
    if n > 0 {
      JumpsAwayMayRedirect(After(a, n - 1));
    }
    if n > 1 {
      JumpsAwayMayRedirect(After(a, n - 2));
    }
  }

  /** Keeping clear of the next two instructions is enough. */
  lemma KeepingClearSuffices(a: Arch)
    requires a.code.InMemory? && StoresKeepClear(a)
    ensures NoStaleFetch(a)
  {
    hide Live, StoresKeepClear, HeldUp, WordStands, FetchCut;
    forall n: nat | Live(a, n)
      ensures WordStands(a, n, FetchCut(a, JumpsAwayIn(a), n)) && WordStands(a, n, FetchCut(a, MayRedirectIn(a), n))
    {
      KeptClear(a, JumpsAwayIn(a), n);
      HeldUpByJump(a, n);
      KeptClear(a, MayRedirectIn(a), n);
    }
  }

  // A program that overwrites the instruction two places ahead of its store: sw x0, 8(x0); nop; ecall

  const STORE_AHEAD := Word(0x0000_2423)
  const NOP := Word(0x0000_0013)
  const ECALL := Word(0x0000_0073)

  const IMAGE: seq<Byte> := [0x23, 0x24, 0, 0, 0x13, 0, 0, 0, 0x73, 0, 0, 0]
  const OVERWRITTEN: seq<Byte> := [0x23, 0x24, 0, 0, 0x13, 0, 0, 0, 0, 0, 0, 0]
  const NO_REGS: RegFile := seq(32, _ => ZERO)

  const PROGRAM := Arch(NO_REGS, IMAGE, ZERO, [], InMemory)

  lemma DecodeStoreAhead()
    ensures var d := DecodeInstruction(STORE_AHEAD);
            d.kind == Sw && d.rs1 == X0 && d.rs2 == X0 && d.immediate == Word(8)
  {
    assert ClassOf(Sw).Store? && Funct3Of(Sw) == 2;
    hide DecodeInstruction, ClassOf, Funct3Of;
    assert FormatS(8, 0, 0, 2, OPCODE_STORE) == 0x2423;
    assert Encode(Sw, X0, X0, X0, Word(8)) == STORE_AHEAD;
    hide Encode;
    EncodeThenDecode(Sw, X0, X0, X0, Word(8));
  }

  lemma DecodeNop()
    ensures var d := DecodeInstruction(NOP);
            d.kind == Addi && d.rd == X0 && d.rs1 == X0 && d.immediate == ZERO
  {
    assert Encode(Addi, X0, X0, X0, ZERO) == NOP;
    hide Encode, DecodeInstruction;
    EncodeThenDecode(Addi, X0, X0, X0, ZERO);
  }

  lemma DecodeEcall()
    ensures DecodeInstruction(ECALL).kind == Ecall
  {
    hide DecodeInstruction, ClassOf, Funct3Of;
    SingleCodes();
    assert FormatI(0, 0, 0, 0, OPCODE_SYSTEM) == 0x73;
    assert Encode(Ecall, X0, X0, X0, ZERO) == ECALL;
    hide Encode;
    EncodeThenDecode(Ecall, X0, X0, X0, ZERO);
  }

  lemma DecodeZero()
    ensures DecodeInstruction(ZERO).kind == Invalid
  {
  }

  lemma WordAt0()
    ensures Word(ReadU32(IMAGE, ZERO)) == STORE_AHEAD
  {
  }

  lemma WordAt4()
    ensures Word(ReadU32(IMAGE, Word(4))) == NOP
    ensures Word(ReadU32(OVERWRITTEN, Word(4))) == NOP
  {
  }

  lemma WordAt8()
    ensures Word(ReadU32(IMAGE, Word(8))) == ECALL
    ensures Word(ReadU32(OVERWRITTEN, Word(8))) == ZERO
  {
  }

  lemma FetchesWord(memory: seq<Byte>, pc: Word)
    requires InBounds(|memory|, pc, 4)
    ensures FetchFrom(memory, pc) == Word(ReadU32(memory, pc))
  {
    hide ReadU32, FromBytes;
    ReadU32IsLittleEndian(memory, pc);
  }

  // The reference machine passes over the overwritten word and runs off the end of memory

  lemma StoreStep()
    ensures EventAt(PROGRAM).Retire?
    ensures Step(PROGRAM).memory == OVERWRITTEN && Step(PROGRAM).pc == Word(4)
  {
    hide DecodeInstruction, FetchFrom, ReadU32;
    FetchesWord(IMAGE, ZERO);
    WordAt0();
    DecodeStoreAhead();
    assert Decoded(PROGRAM) == DecodeInstruction(STORE_AHEAD);
  }

  lemma NopStep(b: Arch)
    requires b.memory == OVERWRITTEN && b.pc == Word(4) && b.code.InMemory?
    ensures EventAt(b).Retire?
    ensures Step(b).memory == OVERWRITTEN && Step(b).pc == Word(8)
  {
    hide DecodeInstruction, FetchFrom, ReadU32;
    FetchesWord(OVERWRITTEN, Word(4));
    WordAt4();
    DecodeNop();
  }

  lemma ZeroStep(b: Arch)
    requires b.memory == OVERWRITTEN && b.pc == Word(8) && b.code.InMemory?
    ensures EventAt(b).Skip?
    ensures EventAt(Step(b)).Stuck?
  {
    hide DecodeInstruction, FetchFrom, ReadU32;
    FetchesWord(OVERWRITTEN, Word(8));
    WordAt8();
    DecodeZero();
  }

  lemma IsaNeverHalts(steps: nat)
    ensures !HaltsAfter(PROGRAM, steps)
  {
    hide EventAt, Step;
    StoreStep();
    assert After(PROGRAM, 0) == PROGRAM && After(PROGRAM, 1) == Step(After(PROGRAM, 0));
    StaysInMemory(PROGRAM, 1);
    NopStep(After(PROGRAM, 1));
    assert After(PROGRAM, 2) == Step(After(PROGRAM, 1));
    StaysInMemory(PROGRAM, 2);
    ZeroStep(After(PROGRAM, 2));
    assert After(PROGRAM, 3) == Step(After(PROGRAM, 2));
    if steps > 4 && Live(PROGRAM, steps - 1) {
      LiveAt(PROGRAM, steps - 1, 3);
    }
  }

  // The pipeline has fetched the word before the store reaches MEM, and halts

  function Straight(pc: Word, instruction: Word): IfId {
    IfId(true, pc, instruction, false, PlusFour(pc))
  }

  lemma FetchesStraight(cpu: CpuState, instruction: Word, predict: Prediction)
    requires InBounds(|cpu.memory|, cpu.pc, 4) && Word(ReadU32(cpu.memory, cpu.pc)) == instruction
    requires !ClassOf(DecodeInstruction(instruction).kind).Branch?
    ensures FetchedAt(cpu, predict) == Straight(cpu.pc, instruction)
  {
    hide ReadU32, DecodeInstruction;
    DecodedControl(instruction);
  }

  /** The CPU before the store: the image as it was loaded. */
  predicate Loaded(cpu: CpuState, pc: Word) {
    cpu.memory == IMAGE && cpu.pc == pc && !cpu.halted
  }

  /** A cycle in which EX holds neither a transfer nor a load: it neither flushes nor stalls. */
  lemma QuietBackHalf(m: Machine)
    requires !AccessThrows(|m.cpu.memory|, m.latches.exMem)
    requires Quiet(m.latches.idEx)
    ensures var back := RunBackHalf(m.cpu, m.latches);
            var operands := Forwarded(m.latches.idEx, m.latches.exMem, m.latches.memWb);
            && !back.flush && !back.stall
            && back.cpu.memory == MemoryAfterStore(m.cpu.memory, m.latches.exMem) && back.cpu.pc == m.cpu.pc
            && back.cpu.halted == (m.cpu.halted || (m.latches.memWb.valid && m.latches.memWb.control.halt))
            && back.memWb == MemWbFrom(m.cpu.memory, m.latches.exMem)
            && back.exMem == ExMemFrom(m.latches.idEx, operands.rs1Value, operands.rs2Value)
  {
    hide Forwarded, AccessThrows, MemoryAfterStore, WritesAfterStore, MemWbFrom, ExMemFrom, RegsAfterWriteback, Trained,
         EvaluateBranch, AluResult, DecodeInstruction, DependsOn, SourcesOf;
  }

  predicate Quiet(idEx: IdEx) {
    idEx.valid ==> !idEx.control.branch && !idEx.control.jump && !idEx.control.memRead
  }

  lemma QuietFrontHalf(predict: Prediction, back: BackHalf, latches: Latches)
    requires !back.flush && !back.stall
    ensures var next := RunFrontHalf(predict, back, latches);
            var idEx := DecodeStep(latches.ifId, back.cpu.regs, false, false);
            && next.latches.idEx == idEx && next.latches.exMem == back.exMem && next.latches.memWb == back.memWb
            && next.cpu.memory == back.cpu.memory && next.cpu.halted == back.cpu.halted
            && (if (idEx.valid && idEx.control.halt) || HaltInFlight(latches) then next.latches.ifId == EMPTY_IF_ID
                else next.latches.ifId == FetchedAt(back.cpu, predict)
                     && (next.latches.ifId.valid ==> next.cpu.pc == next.latches.ifId.predictedNextPc))
  {
    hide DecodeStep, FetchedAt, HaltInFlight;
  }

  /** A quiet cycle, put together; `fetching` is the CPU as IF finds it. */
  lemma QuietCycle(predict: Prediction, m: Machine) returns (fetching: CpuState)
    requires !AccessThrows(|m.cpu.memory|, m.latches.exMem) && Quiet(m.latches.idEx)
    ensures Cycle(predict, m).Ticked?
    ensures fetching.memory == MemoryAfterStore(m.cpu.memory, m.latches.exMem) && fetching.pc == m.cpu.pc
    ensures var next, idEx := Cycle(predict, m).machine, DecodeStep(m.latches.ifId, fetching.regs, false, false);
            var operands := Forwarded(m.latches.idEx, m.latches.exMem, m.latches.memWb);
            && next.latches.idEx == idEx
            && next.latches.exMem == ExMemFrom(m.latches.idEx, operands.rs1Value, operands.rs2Value)
            && next.latches.memWb == MemWbFrom(m.cpu.memory, m.latches.exMem)
            && next.cpu.memory == fetching.memory
            && next.cpu.halted == (m.cpu.halted || (m.latches.memWb.valid && m.latches.memWb.control.halt))
            && (if (idEx.valid && idEx.control.halt) || HaltInFlight(m.latches) then next.latches.ifId == EMPTY_IF_ID
                else next.latches.ifId == FetchedAt(fetching, predict)
                     && (next.latches.ifId.valid ==> next.cpu.pc == next.latches.ifId.predictedNextPc))
  {
    hide RunBackHalf, RunFrontHalf, AccessThrows, DecodeStep, FetchedAt, HaltInFlight, Forwarded, MemoryAfterStore,
         MemWbFrom, ExMemFrom, Quiet;
    QuietBackHalf(m);
    QuietFrontHalf(predict, RunBackHalf(m.cpu, m.latches), m.latches);
    fetching := RunBackHalf(m.cpu, m.latches).cpu;
  }

  const HALT_CONTROL := NO_CONTROL.(halt := true)

  const NOP_CONTROL := NO_CONTROL.(regWrite := true, aluSrcImm := true, aluOp := AluAdd, writebackSource := Alu)

  const STORE_CONTROL := NO_CONTROL.(memWrite := true, aluSrcImm := true, aluOp := AluAdd, memoryWidth := WordAccess)

  lemma HaltControl()
    ensures DecodeInstruction(ECALL).control == HALT_CONTROL && DecodeInstruction(ECALL).kind == Ecall
  {
    hide DecodeInstruction;
    DecodeEcall();
    DecodedControl(ECALL);
  }

  lemma NopControl()
    ensures DecodeInstruction(NOP).control == NOP_CONTROL
  {
    hide DecodeInstruction;
    DecodeNop();
    DecodedControl(NOP);
  }

  lemma StoreControl()
    ensures ControlOf(Sw) == STORE_CONTROL
  {
  }

  lemma Cycle1(predict: Prediction, m: Machine)
    requires m.latches == EMPTY_LATCHES && Loaded(m.cpu, ZERO)
    ensures Cycle(predict, m).Ticked?
    ensures var next := Cycle(predict, m).machine;
            && Loaded(next.cpu, Word(4))
            && next.latches == Latches(Straight(ZERO, STORE_AHEAD), EMPTY_ID_EX, EMPTY_EX_MEM, EMPTY_MEM_WB)
  {
    hide Cycle, ReadU32, DecodeInstruction, FetchedAt, Forwarded;
    var fetching := QuietCycle(predict, m);
    WordAt0();
    DecodeStoreAhead();
    FetchesStraight(fetching, STORE_AHEAD, predict);
  }

  /** ID has decoded the word at `pc`, and no register but x0 is involved. */
  predicate InDecode(idEx: IdEx, pc: Word, instruction: Word) {
    && idEx.valid && idEx.pc == pc && idEx.control == DecodeInstruction(instruction).control
    && idEx.rs1 == X0 && idEx.rs1Value == ZERO && idEx.immediate == DecodeInstruction(instruction).immediate
  }

  lemma Cycle2(predict: Prediction, m: Machine)
    requires m.latches == Latches(Straight(ZERO, STORE_AHEAD), EMPTY_ID_EX, EMPTY_EX_MEM, EMPTY_MEM_WB)
    requires Loaded(m.cpu, Word(4))
    ensures Cycle(predict, m).Ticked?
    ensures var next := Cycle(predict, m).machine;
            && Loaded(next.cpu, Word(8))
            && next.latches.ifId == Straight(Word(4), NOP)
            && InDecode(next.latches.idEx, ZERO, STORE_AHEAD)
            && next.latches.exMem == EMPTY_EX_MEM && next.latches.memWb == EMPTY_MEM_WB
  {
    hide Cycle, ReadU32, DecodeInstruction, FetchedAt, Forwarded, ControlOf;
    DecodeStoreAhead();
    DecodedControl(STORE_AHEAD);
    StoreControl();
    var fetching := QuietCycle(predict, m);
    WordAt4();
    DecodeNop();
    FetchesStraight(fetching, NOP, predict);
  }

  lemma StoreAddress(idEx: IdEx, exMem: ExMem, memWb: MemWb)
    requires InDecode(idEx, ZERO, STORE_AHEAD)
    ensures var operands := Forwarded(idEx, exMem, memWb);
            var stored := ExMemFrom(idEx, operands.rs1Value, operands.rs2Value);
            stored.valid && stored.control == ControlOf(Sw) && stored.aluResult == Word(8)
    ensures Quiet(idEx) && !idEx.control.halt
  {
    hide DecodeInstruction, CanForwardFromExMem, CanForwardFromMemWb, Resolve;
    DecodeStoreAhead();
    DecodedControl(STORE_AHEAD);
  }

  lemma NopIsPlain()
    ensures !ControlOf(Addi).halt
  {
  }

  lemma Cycle3(predict: Prediction, m: Machine)
    requires m.latches.ifId == Straight(Word(4), NOP) && InDecode(m.latches.idEx, ZERO, STORE_AHEAD)
    requires m.latches.exMem == EMPTY_EX_MEM && m.latches.memWb == EMPTY_MEM_WB
    requires Loaded(m.cpu, Word(8))
    ensures Cycle(predict, m).Ticked?
    ensures var next := Cycle(predict, m).machine;
            && Loaded(next.cpu, Word(12))
            && next.latches.ifId == Straight(Word(8), ECALL)
            && InDecode(next.latches.idEx, Word(4), NOP)
            && next.latches.exMem.valid && next.latches.exMem.control == ControlOf(Sw)
            && next.latches.exMem.aluResult == Word(8)
            && next.latches.memWb == EMPTY_MEM_WB
  {
    hide Cycle, ReadU32, DecodeInstruction, FetchedAt, Forwarded, ExMemFrom, Quiet, ControlOf;
    StoreAddress(m.latches.idEx, m.latches.exMem, m.latches.memWb);
    DecodeNop();
    DecodedControl(NOP);
    NopIsPlain();
    var fetching := QuietCycle(predict, m);
    WordAt8();
    DecodeEcall();
    FetchesStraight(fetching, ECALL, predict);
  }

  lemma Cycle4(predict: Prediction, m: Machine)
    requires m.latches.ifId == Straight(Word(8), ECALL) && InDecode(m.latches.idEx, Word(4), NOP)
    requires m.latches.exMem.valid && m.latches.exMem.control == ControlOf(Sw) && m.latches.exMem.aluResult == Word(8)
    requires m.latches.memWb == EMPTY_MEM_WB
    requires Loaded(m.cpu, Word(12))
    ensures Cycle(predict, m).Ticked?
    ensures var next := Cycle(predict, m).machine;
            && !next.cpu.halted
            && next.latches.ifId == EMPTY_IF_ID
            && next.latches.idEx.valid && next.latches.idEx.control == HALT_CONTROL
            && next.latches.exMem.valid && next.latches.exMem.control == NOP_CONTROL
            && next.latches.memWb.valid && !next.latches.memWb.control.halt
  {
    hide Cycle, DecodeInstruction, FetchedAt, Forwarded, MemoryAfterStore, AluResult, ControlOf;
    NopControl();
    HaltControl();
    StoreControl();
    var fetching := QuietCycle(predict, m);
  }

  lemma Cycle5(predict: Prediction, m: Machine)
    requires m.latches.ifId == EMPTY_IF_ID && m.latches.idEx.valid && m.latches.idEx.control == HALT_CONTROL
    requires m.latches.exMem.valid && m.latches.exMem.control == NOP_CONTROL
    requires m.latches.memWb.valid && !m.latches.memWb.control.halt && !m.cpu.halted
    ensures Cycle(predict, m).Ticked?
    ensures var next := Cycle(predict, m).machine;
            && !next.cpu.halted
            && next.latches.idEx == EMPTY_ID_EX
            && next.latches.exMem.valid && next.latches.exMem.control == HALT_CONTROL
            && !next.latches.memWb.control.halt
  {
    hide Cycle, DecodeInstruction, FetchedAt, Forwarded, MemoryAfterStore, AluResult;
    var fetching := QuietCycle(predict, m);
  }

  lemma Cycle6(predict: Prediction, m: Machine)
    requires m.latches.idEx == EMPTY_ID_EX
    requires m.latches.exMem.valid && m.latches.exMem.control == HALT_CONTROL
    requires !m.latches.memWb.control.halt && !m.cpu.halted
    ensures Cycle(predict, m).Ticked?
    ensures var next := Cycle(predict, m).machine;
            && !next.cpu.halted
            && next.latches.memWb.valid && next.latches.memWb.control.halt
            && next.latches.exMem == EMPTY_EX_MEM
  {
    hide Cycle, DecodeInstruction, FetchedAt, Forwarded, MemoryAfterStore, AluResult, DecodeStep;
    var fetching := QuietCycle(predict, m);
  }

  lemma Cycle7(predict: Prediction, m: Machine)
    requires m.latches.exMem == EMPTY_EX_MEM && m.latches.memWb.valid && m.latches.memWb.control.halt
    ensures Cycle(predict, m).Ticked? && Cycle(predict, m).machine.cpu.halted
  {
    hide DecodeInstruction, FetchedAt;
  }

  /** However branches are predicted, the pipeline halts in seven cycles. */
  lemma PipelineHalts(predict: Prediction, start: Machine)
    requires Starts(start, PROGRAM)
    ensures Run(predict, start, 7).Ticked? && Run(predict, start, 7).machine.cpu.halted
  {
    hide Cycle, InDecode, Straight, ControlOf;
    assert Run(predict, start, 0) == Ticked(start);
    Cycle1(predict, start);
    OneMoreCycle(predict, start, 0);
    var m1 := Cycle(predict, start).machine;
    Cycle2(predict, m1);
    OneMoreCycle(predict, start, 1);
    var m2 := Cycle(predict, m1).machine;
    Cycle3(predict, m2);
    OneMoreCycle(predict, start, 2);
    var m3 := Cycle(predict, m2).machine;
    Cycle4(predict, m3);
    OneMoreCycle(predict, start, 3);
    var m4 := Cycle(predict, m3).machine;
    Cycle5(predict, m4);
    OneMoreCycle(predict, start, 4);
    var m5 := Cycle(predict, m4).machine;
    Cycle6(predict, m5);
    OneMoreCycle(predict, start, 5);
    var m6 := Cycle(predict, m5).machine;
    Cycle7(predict, m6);
    OneMoreCycle(predict, start, 6);
  }

  /**
   * A store two instructions ahead defeats the refinement: the pipeline executes the ecall that the program has
   * overwritten, and the ISA machine never halts.
   */
  lemma TwoAheadIsTooClose(predict: Prediction, start: Machine)
    requires Starts(start, PROGRAM)
    ensures Run(predict, start, 7).Ticked? && Run(predict, start, 7).machine.cpu.halted
    ensures !exists steps: nat :: HaltsAfter(PROGRAM, steps)
  {
    hide Starts, HaltsAfter, Run;
    PipelineHalts(predict, start);
    forall steps: nat
      ensures !HaltsAfter(PROGRAM, steps)
    {
      IsaNeverHalts(steps);
    }
  }

  lemma TwoAheadIsStale(predict: Prediction, start: Machine)
    requires Starts(start, PROGRAM)
    ensures !FetchesSafely(predict, PROGRAM, start)
  {
    hide Starts, HaltsAfter, FetchesSafely, Run;
    TwoAheadIsTooClose(predict, start);
    if FetchesSafely(predict, PROGRAM, start) {
      HaltsIffIsaHalts(predict, PROGRAM, start);
    }
  }

  // A program that overwrites the instruction right behind its store: sw x0, 4(x0); ecall

  const STORE_NEXT := Word(0x0000_2223)

  const NEXT_IMAGE: seq<Byte> := [0x23, 0x22, 0, 0, 0x73, 0, 0, 0]
  const NEXT_OVERWRITTEN: seq<Byte> := [0x23, 0x22, 0, 0, 0, 0, 0, 0]

  const NEXT_PROGRAM := Arch(NO_REGS, NEXT_IMAGE, ZERO, [], InMemory)

  lemma DecodeStoreNext()
    ensures var d := DecodeInstruction(STORE_NEXT);
            d.kind == Sw && d.rs1 == X0 && d.rs2 == X0 && d.immediate == Word(4)
  {
    assert ClassOf(Sw).Store? && Funct3Of(Sw) == 2;
    hide DecodeInstruction, ClassOf, Funct3Of;
    assert FormatS(4, 0, 0, 2, OPCODE_STORE) == 0x2223;
    assert Encode(Sw, X0, X0, X0, Word(4)) == STORE_NEXT;
    hide Encode;
    EncodeThenDecode(Sw, X0, X0, X0, Word(4));
  }

  lemma FirstWordOfNext()
    ensures Word(ReadU32(NEXT_IMAGE, ZERO)) == STORE_NEXT
  {
  }

  lemma SecondWordOfNext()
    ensures Word(ReadU32(NEXT_IMAGE, Word(4))) == ECALL
    ensures Word(ReadU32(NEXT_OVERWRITTEN, Word(4))) == ZERO
  {
  }

  lemma StoreNextStep()
    ensures EventAt(NEXT_PROGRAM).Retire?
    ensures Step(NEXT_PROGRAM).memory == NEXT_OVERWRITTEN && Step(NEXT_PROGRAM).pc == Word(4)
  {
    hide DecodeInstruction, FetchFrom, ReadU32;
    FetchesWord(NEXT_IMAGE, ZERO);
    FirstWordOfNext();
    DecodeStoreNext();
    assert Decoded(NEXT_PROGRAM) == DecodeInstruction(STORE_NEXT);
  }

  lemma NextDoesNotStand()
    ensures Live(NEXT_PROGRAM, 1) && !WordStands(NEXT_PROGRAM, 1, 0)
  {
    hide EventAt, Step, FetchFrom, ReadU32;
    StoreNextStep();
    StaysInMemory(NEXT_PROGRAM, 1);
    assert After(NEXT_PROGRAM, 0) == NEXT_PROGRAM && After(NEXT_PROGRAM, 1) == Step(After(NEXT_PROGRAM, 0));
    FetchesWord(NEXT_IMAGE, Word(4));
    FetchesWord(NEXT_OVERWRITTEN, Word(4));
    SecondWordOfNext();
  }

  /** A store into the next instruction is always fetched past: in every mode the latches leave the trace. */
  lemma OneAheadIsTooClose(start: Machine)
    requires Starts(start, NEXT_PROGRAM)
    ensures exists n: nat :: !FollowsAt(CONFIGURED, NEXT_PROGRAM, start, n)
    ensures !NoStaleFetch(NEXT_PROGRAM)
  {
    hide Starts, Live, WordStands, FollowsAt, RedirectsAt;
    NextDoesNotStand();
    FollowsIffFresh(NEXT_PROGRAM, start);
    assert FetchCut(NEXT_PROGRAM, RedirectsIn(NEXT_PROGRAM, start.cpu.mode, start.cpu.counters), 1) == 0;
  }
}
