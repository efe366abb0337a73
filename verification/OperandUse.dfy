/**
 * That the operand-use table of the hazard unit is exact: an instruction reads a register operand, by the table,
 * precisely if the reference machine does something else with another value in it. So the interlock stalls for every
 * load that matters and for no other.
 */
module OperandUse {
  import opened Words
  import opened Memory
  import opened PipelineRegisters
  import opened Instruction
  import opened Hazard
  import opened Isa

  /** The machines differ in this register alone. */
  ghost predicate DifferOnlyIn(a: Arch, b: Arch, r: RegIndex) {
    && a.memory == b.memory && a.pc == b.pc && a.writes == b.writes && a.code == b.code
    && forall s: RegIndex | s != r :: ReadReg(a.regs, s) == ReadReg(b.regs, s)
  }

  /** The instruction comes to the same on both: what happens, the value for rd, where control goes, what is stored. */
  ghost predicate SameEffect(a: Arch, b: Arch, d: DecodedInstruction) {
    && EventOf(a, d) == EventOf(b, d)
    && (EventOf(a, d).Retire? ==>
          && Result(a, d) == Result(b, d) && NextPc(a, d) == NextPc(b, d)
          && NextMemory(a, d) == NextMemory(b, d) && NextWrites(a, d) == NextWrites(b, d))
  }

  /** The first operand can matter: on some machine, an instruction of the kind depends on its rs1. */
  ghost predicate FirstMatters(kind: InstructionKind) {
    exists d: DecodedInstruction, a: Arch, b: Arch ::
      d.kind == kind && d.rs1 != d.rs2 && DifferOnlyIn(a, b, d.rs1) && !SameEffect(a, b, d)
  }

  ghost predicate SecondMatters(kind: InstructionKind) {
    exists d: DecodedInstruction, a: Arch, b: Arch ::
      d.kind == kind && d.rs1 != d.rs2 && DifferOnlyIn(a, b, d.rs2) && !SameEffect(a, b, d)
  }

  // What is not read does not matter

  lemma UnreadFirst(d: DecodedInstruction, a: Arch, b: Arch)
    requires !ReadsRs1(d.kind) && d.rs1 != d.rs2 && DifferOnlyIn(a, b, d.rs1)
    ensures SameEffect(a, b, d)
  {
    hide ClassOf, ReadReg, Compute, Taken, InBounds, Plus, PlusFour;
  }

  lemma UnreadSecond(d: DecodedInstruction, a: Arch, b: Arch)
    requires !ReadsRs2(d.kind) && d.rs1 != d.rs2 && DifferOnlyIn(a, b, d.rs2)
    ensures SameEffect(a, b, d)
  {
    hide ClassOf, ReadReg, Compute, Taken, InBounds, Plus, PlusFour, Index, AccessBytes, FromBytes, Extended;
  }

  // What is read matters: a machine with four bytes of memory, and x1 and x2 for operands

  const FOUR_BYTES: seq<Byte> := [0, 0, 0, 0]

  function Registers(x: Word, y: Word): RegFile {
    seq(32, i => if i == 1 then x else if i == 2 then y else ZERO)
  }

  function At(x: Word, y: Word): Arch {
    Arch(Registers(x, y), FOUR_BYTES, ZERO, [], InMemory)
  }

  function Example(kind: InstructionKind, imm: Word): DecodedInstruction {
    DecodedInstruction(kind, UnknownFormat, ZERO, 0, X(3), X(1), X(2), 0, 0, imm, NO_CONTROL)
  }

  lemma OperandsOf(kind: InstructionKind, imm: Word, x: Word, y: Word)
    ensures var a, d := At(x, y), Example(kind, imm); Rs1(a, d) == x && Rs2(a, d) == y && InBounds(|a.memory|, a.pc, 4)
  {
  }

  lemma ExamplesDiffer(x: Word, y: Word, z: Word)
    ensures DifferOnlyIn(At(x, z), At(y, z), X(1)) && DifferOnlyIn(At(z, x), At(z, y), X(2))
  {
    forall s: RegIndex
      ensures s != X(1) ==> ReadReg(At(x, z).regs, s) == ReadReg(At(y, z).regs, s)
      ensures s != X(2) ==> ReadReg(At(z, x).regs, s) == ReadReg(At(z, y).regs, s)
    {
      OtherRegisters(x, y, z, s);
    }
  }

  lemma OtherRegisters(x: Word, y: Word, z: Word, s: RegIndex)
    ensures s != X(1) ==> ReadReg(Registers(x, z), s) == ReadReg(Registers(y, z), s)
    ensures s != X(2) ==> ReadReg(Registers(z, x), s) == ReadReg(Registers(z, y), s)
  {
    SlotOf(s.number);
  }

  lemma SlotOf(n: bv5)
    ensures n as nat == 1 ==> n == 1
    ensures n as nat == 2 ==> n == 2
  {
  }

  lemma FirstBy(kind: InstructionKind, imm: Word, x: Word, y: Word, z: Word)
    requires !SameEffect(At(x, z), At(y, z), Example(kind, imm))
    ensures FirstMatters(kind)
  {
    hide SameEffect, DifferOnlyIn, At;
    ExamplesDiffer(x, y, z);
  }

  lemma SecondBy(kind: InstructionKind, imm: Word, x: Word, y: Word, z: Word)
    requires !SameEffect(At(z, x), At(z, y), Example(kind, imm))
    ensures SecondMatters(kind)
  {
    hide SameEffect, DifferOnlyIn, At;
    ExamplesDiffer(x, y, z);
  }

  const ONE := Word(1)

  /** A second operand for which the first one makes a difference to an arithmetic result. */
  function OtherOperand(kind: InstructionKind): Word {
    match kind
    case And | Andi | Slt | Slti | Sltu | Sltiu => ONE
    case _ => ZERO
  }

  lemma FirstChangesResult(kind: InstructionKind)
    requires ClassOf(kind).RegAlu? || ClassOf(kind).ImmAlu?
    ensures Compute(kind, ZERO, OtherOperand(kind)) != Compute(kind, ONE, OtherOperand(kind))
  {
  }

  /** A first operand for which the second one makes a difference. */
  function OneOperand(kind: InstructionKind): Word {
    match kind
    case And | Sll | Srl | Sra => ONE
    case _ => ZERO
  }

  lemma SecondChangesResult(kind: InstructionKind)
    requires ClassOf(kind).RegAlu?
    ensures Compute(kind, OneOperand(kind), ZERO) != Compute(kind, OneOperand(kind), ONE)
  {
  }

  lemma BranchesDiffer(kind: InstructionKind)
    requires ClassOf(kind).Branch?
    ensures Taken(kind, ZERO, ONE) != Taken(kind, ONE, ONE)
    ensures Taken(kind, ZERO, ZERO) != Taken(kind, ZERO, ONE)
    ensures Plus(ZERO, Word(8)) != PlusFour(ZERO)
  {
  }

  lemma ArithmeticOperandsMatter(kind: InstructionKind)
    requires ClassOf(kind).RegAlu? || ClassOf(kind).ImmAlu?
    ensures FirstMatters(kind)
    ensures ClassOf(kind).RegAlu? ==> SecondMatters(kind)
  {
    hide Compute, ReadReg, FirstMatters, SecondMatters, InBounds, OtherOperand, OneOperand, At;
    var z, x := OtherOperand(kind), OneOperand(kind);
    FirstChangesResult(kind);
    OperandsOf(kind, z, ZERO, z);
    OperandsOf(kind, z, ONE, z);
    FirstBy(kind, z, ZERO, ONE, z);
    if ClassOf(kind).RegAlu? {
      SecondChangesResult(kind);
      OperandsOf(kind, z, x, ZERO);
      OperandsOf(kind, z, x, ONE);
      SecondBy(kind, z, ZERO, ONE, x);
    }
  }

  lemma BranchOperandsMatter(kind: InstructionKind)
    requires ClassOf(kind).Branch?
    ensures FirstMatters(kind) && SecondMatters(kind)
  {
    hide Taken, ReadReg, FirstMatters, SecondMatters, InBounds, Plus, PlusFour;
    var eight := Word(8);
    BranchesDiffer(kind);
    OperandsOf(kind, eight, ZERO, ONE);
    OperandsOf(kind, eight, ONE, ONE);
    OperandsOf(kind, eight, ZERO, ZERO);
    FirstBy(kind, eight, ZERO, ONE, ONE);
    SecondBy(kind, eight, ZERO, ONE, ZERO);
  }

  lemma AddressesDiffer(kind: InstructionKind)
    requires ClassOf(kind).Load? || ClassOf(kind).Store?
    ensures Index(Plus(ZERO, ZERO)) + AccessBytes(kind) <= 4 < Index(Plus(Word(4), ZERO)) + AccessBytes(kind)
    ensures AccessBytes(kind) > 0 && Index(Plus(ZERO, ZERO)) == 0
  {
  }

  lemma AddressMatters(kind: InstructionKind)
    requires ClassOf(kind).Load? || ClassOf(kind).Store?
    ensures FirstMatters(kind)
  {
    hide ReadReg, FirstMatters, InBounds, Plus, AccessBytes, Index;
    AddressesDiffer(kind);
    OperandsOf(kind, ZERO, ZERO, ZERO);
    OperandsOf(kind, ZERO, Word(4), ZERO);
    FirstBy(kind, ZERO, ZERO, Word(4), ZERO);
  }

  lemma StoredBytesDiffer(count: nat)
    requires 0 < count <= 4
    ensures Splice(FOUR_BYTES, 0, ToBytes(0, count)) != Splice(FOUR_BYTES, 0, ToBytes(1, count))
  {
    assert Splice(FOUR_BYTES, 0, ToBytes(0, count))[0] == 0 && Splice(FOUR_BYTES, 0, ToBytes(1, count))[0] == 1;
  }

  lemma StoredValueMatters(kind: InstructionKind)
    requires ClassOf(kind).Store?
    ensures SecondMatters(kind)
  {
    hide ReadReg, SecondMatters, InBounds, Plus, AccessBytes, ToBytes, Splice, Index;
    AddressesDiffer(kind);
    OperandsOf(kind, ZERO, ZERO, ZERO);
    OperandsOf(kind, ZERO, ZERO, ONE);
    StoredBytesDiffer(AccessBytes(kind));
    SecondBy(kind, ZERO, ZERO, ONE, ZERO);
  }

  lemma TargetsDiffer()
    ensures Even(Plus(ZERO, ZERO)) != Even(Plus(Word(4), ZERO))
  {
  }

  lemma JumpRegisterMatters()
    ensures FirstMatters(Jalr)
  {
    hide ReadReg, FirstMatters, InBounds, Plus, PlusFour, Even;
    TargetsDiffer();
    OperandsOf(Jalr, ZERO, ZERO, ZERO);
    OperandsOf(Jalr, ZERO, Word(4), ZERO);
    FirstBy(Jalr, ZERO, ZERO, Word(4), ZERO);
  }

  lemma UnreadDoNotMatter(kind: InstructionKind)
    ensures !ReadsRs1(kind) ==> !FirstMatters(kind)
    ensures !ReadsRs2(kind) ==> !SecondMatters(kind)
  {
    hide DifferOnlyIn, SameEffect, ReadsRs1, ReadsRs2;
    forall d: DecodedInstruction, a: Arch, b: Arch | d.kind == kind && d.rs1 != d.rs2
      ensures !ReadsRs1(kind) && DifferOnlyIn(a, b, d.rs1) ==> SameEffect(a, b, d)
      ensures !ReadsRs2(kind) && DifferOnlyIn(a, b, d.rs2) ==> SameEffect(a, b, d)
    {
      if !ReadsRs1(kind) && DifferOnlyIn(a, b, d.rs1) {
        UnreadFirst(d, a, b);
      }
      if !ReadsRs2(kind) && DifferOnlyIn(a, b, d.rs2) {
        UnreadSecond(d, a, b);
      }
    }
  }

  /** The operand-use table marks exactly the operands that can matter. */
  lemma OperandUseIsExact(kind: InstructionKind)
    ensures ReadsRs1(kind) <==> FirstMatters(kind)
    ensures ReadsRs2(kind) <==> SecondMatters(kind)
  {
    hide FirstMatters, SecondMatters;
    UnreadDoNotMatter(kind);
    match ClassOf(kind) {
      case RegAlu | ImmAlu => ArithmeticOperandsMatter(kind);
      case Branch => BranchOperandsMatter(kind);
      case Load => AddressMatters(kind);
      case Store =>
        AddressMatters(kind);
        StoredValueMatters(kind);
      case JumpRegister => JumpRegisterMatters();
      case _ =>
    }
  }

  /**
   * The interlock is exact: ID stalls precisely for a load in ID/EX into a register that matters as an operand of the
   * instruction in IF/ID.
   */
  lemma StallsExactly(ifId: IfId, idEx: IdEx)
    ensures var d := DecodeInstruction(ifId.instruction);
            IsLoadUse(ifId, idEx) <==>
              && ifId.valid && idEx.valid && idEx.control.memRead && idEx.control.regWrite && idEx.rd.number != 0
              && ((FirstMatters(d.kind) && d.rs1 == idEx.rd) || (SecondMatters(d.kind) && d.rs2 == idEx.rd))
  {
    hide DecodeInstruction, FirstMatters, SecondMatters, ReadsRs1, ReadsRs2;
    var d := DecodeInstruction(ifId.instruction);
    OperandUseIsExact(d.kind);
    InvalidReadsNothing();
  }

  lemma InvalidReadsNothing()
    ensures !ReadsRs1(Invalid) && !ReadsRs2(Invalid)
  {
  }
}
