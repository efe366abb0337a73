/**
 * The sequential reference machine: one RV32I instruction at a time, as the RISC-V Unprivileged ISA (20191213)
 * describes it in sections 2.4 (integer computation), 2.5 (control transfer), 2.6 (loads and stores) and
 * 2.8 (environment call and breakpoint). It knows nothing of control signals, latches or prediction.
 */
module Isa {
  import opened Words
  import opened Memory
  import opened Instruction

  /** What the machine executes: what its memory holds at the program counter, or a record of one word per step. */
  datatype Code =
    | InMemory
    | Recorded(words: nat -> Word, entry: nat)

  datatype Arch = Arch(regs: RegFile, memory: seq<Byte>, pc: Word, writes: seq<MemoryWrite>, code: Code)

  /** What happens to the instruction at the program counter. */
  datatype Event =
    | Retire  // it executes and control moves on
    | Skip    // its word is not an instruction; it is passed over
    | Halt    // it is ecall or ebreak
    | Fault   // it accesses memory out of bounds
    | Stuck   // it cannot be fetched

  function FetchFrom(memory: seq<Byte>, pc: Word): Word {
    if InBounds(|memory|, pc, 4) then Word(FromBytes(memory[Index(pc)..Index(pc) + 4])) else ZERO
  }

  function FetchWord(a: Arch): Word {
    if a.code.InMemory? || !InBounds(|a.memory|, a.pc, 4) then FetchFrom(a.memory, a.pc)
    else a.code.words(a.code.entry)
  }

  function NextCode(code: Code): Code {
    if code.InMemory? then code else code.(entry := code.entry + 1)
  }

  function Decoded(a: Arch): DecodedInstruction {
    DecodeInstruction(FetchWord(a))
  }

  function Rs1(a: Arch, d: DecodedInstruction): Word {
    ReadReg(a.regs, d.rs1)
  }

  function Rs2(a: Arch, d: DecodedInstruction): Word {
    ReadReg(a.regs, d.rs2)
  }

  predicate IsNegative(x: bv32) {
    x >= 0x8000_0000
  }

  /** Signed comparison: a negative number is below a non-negative one; otherwise the patterns order them. */
  predicate SignedLess(x: Word, y: Word) {
    if IsNegative(x.bits) != IsNegative(y.bits) then IsNegative(x.bits) else Less(x.bits, y.bits)
  }

  /** The low five bits: the only ones a shift looks at. */
  function ShiftAmount(y: Word): bv5 {
    (y.bits % 32) as bv5
  }

  /** Shifted right, with copies of the sign bit in the places that fall free. */
  function SignFilledShift(x: bv32, amount: bv5): bv32 {
    ShiftRight(x, amount) | (if IsNegative(x) then !ShiftRight(0xFFFF_FFFF, amount) else 0)
  }

  function Compute(kind: InstructionKind, x: Word, y: Word): Word {
    match kind
    case Add | Addi => Plus(x, y)
    case Sub => Minus(x, y)
    case And | Andi => BitAnd(x, y)
    case Or | Ori => BitOr(x, y)
    case Xor | Xori => BitXor(x, y)
    case Sll | Slli => Word(ShiftLeft(x.bits, ShiftAmount(y)))
    case Srl | Srli => Word(ShiftRight(x.bits, ShiftAmount(y)))
    case Sra | Srai => Word(SignFilledShift(x.bits, ShiftAmount(y)))
    case Slt | Slti => if SignedLess(x, y) then Word(1) else ZERO
    case Sltu | Sltiu => if Below(x, y) then Word(1) else ZERO
    case _ => ZERO
  }

  predicate Taken(kind: InstructionKind, x: Word, y: Word) {
    match kind
    case Beq => x == y
    case Bne => x != y
    case Blt => SignedLess(x, y)
    case Bge => !SignedLess(x, y)
    case Bltu => Below(x, y)
    case Bgeu => !Below(x, y)
    case _ => false
  }

  function AccessBytes(kind: InstructionKind): nat {
    match kind
    case Lb | Lbu | Sb => 1
    case Lh | Lhu | Sh => 2
    case Lw | Sw => 4
    case _ => 0
  }

  function EffectiveAddress(a: Arch, d: DecodedInstruction): Word {
    Plus(Rs1(a, d), d.immediate)
  }

  predicate AccessInBounds(a: Arch, d: DecodedInstruction) {
    Index(EffectiveAddress(a, d)) + AccessBytes(d.kind) <= |a.memory|
  }

  /** The value `raw` of a one- or two-byte load as a number: lb and lh count in two's complement. */
  function Extended(kind: InstructionKind, raw: bv32): bv32 {
    match kind
    case Lb => if raw < 0x80 then raw else raw - 0x100
    case Lh => if raw < 0x8000 then raw else raw - 0x1_0000
    case _ => raw
  }

  function LoadedValue(a: Arch, d: DecodedInstruction): Word
    requires AccessInBounds(a, d)
  {
    var address := Index(EffectiveAddress(a, d));
    Word(Extended(d.kind, FromBytes(a.memory[address..address + AccessBytes(d.kind)])))
  }

  function EventOf(a: Arch, d: DecodedInstruction): Event {
    if !InBounds(|a.memory|, a.pc, 4) then Stuck
    else
      match ClassOf(d.kind)
      case NoClass => Skip
      case System => Halt
      case Load | Store => if AccessInBounds(a, d) then Retire else Fault
      case _ => Retire
  }

  function EventAt(a: Arch): Event {
    EventOf(a, Decoded(a))
  }

  /** The value an instruction leaves in its destination register, if it has one. */
  function Result(a: Arch, d: DecodedInstruction): Option<Word>
    requires EventOf(a, d).Retire?
  {
    match ClassOf(d.kind)
    case RegAlu => Some(Compute(d.kind, Rs1(a, d), Rs2(a, d)))
    case ImmAlu => Some(Compute(d.kind, Rs1(a, d), d.immediate))
    case Load => Some(LoadedValue(a, d))
    case LoadUpper => Some(d.immediate)
    case AddUpperPc => Some(Plus(a.pc, d.immediate))
    case Jump | JumpRegister => Some(PlusFour(a.pc))
    case Store | Branch | System | NoClass => None
  }

  function NextRegs(a: Arch, d: DecodedInstruction): RegFile
    requires EventOf(a, d).Retire?
  {
    match Result(a, d)
    case Some(value) => WriteReg(a.regs, d.rd, value)
    case None => a.regs
  }

  /** The target with its least-significant bit set to zero. */
  function Even(target: Word): Word {
    Word(target.bits - target.bits % 2)
  }

  function NextPc(a: Arch, d: DecodedInstruction): Word {
    match ClassOf(d.kind)
    case Branch => if Taken(d.kind, Rs1(a, d), Rs2(a, d)) then Plus(a.pc, d.immediate) else PlusFour(a.pc)
    case Jump => Plus(a.pc, d.immediate)
    case JumpRegister => Even(Plus(Rs1(a, d), d.immediate))
    case _ => PlusFour(a.pc)
  }

  function NextMemory(a: Arch, d: DecodedInstruction): (memory: seq<Byte>)
    requires EventOf(a, d).Retire?
    ensures |memory| == |a.memory|
  {
    if ClassOf(d.kind).Store? then
      Splice(a.memory, Index(EffectiveAddress(a, d)), ToBytes(Rs2(a, d).bits, AccessBytes(d.kind)))
    else a.memory
  }

  function NextWrites(a: Arch, d: DecodedInstruction): seq<MemoryWrite> {
    if ClassOf(d.kind).Store? then a.writes + [MemoryWrite(EffectiveAddress(a, d), AccessBytes(d.kind))] else a.writes
  }

  function Executed(a: Arch, d: DecodedInstruction): Arch
    requires EventOf(a, d).Retire?
  {
    Arch(NextRegs(a, d), NextMemory(a, d), NextPc(a, d), NextWrites(a, d), NextCode(a.code))
  }

  /** One step. A halt leaves the program counter behind it; a fault or an impossible fetch changes nothing. */
  function Step(a: Arch): Arch {
    match EventAt(a)
    case Retire => Executed(a, Decoded(a))
    case Skip | Halt => a.(pc := PlusFour(a.pc), code := NextCode(a.code))
    case Fault | Stuck => a
  }

  /** The state after `n` steps. */
  function After(a: Arch, n: nat): Arch {
    if n == 0 then a else Step(After(a, n - 1))
  }

  /** The instruction executes and another one follows it. */
  predicate Proceeds(a: Arch) {
    EventAt(a).Retire? || EventAt(a).Skip?
  }

  /** The first `n` instructions execute, so the machine really reaches the `n`-th. */
  ghost predicate Live(a: Arch, n: nat) {
    forall i: nat | i < n :: Proceeds(After(a, i))
  }

  /** The machine halts with its `steps`-th instruction. */
  ghost predicate HaltsAfter(a: Arch, steps: nat) {
    steps > 0 && Live(a, steps - 1) && EventAt(After(a, steps - 1)).Halt?
  }

  lemma LiveAt(a: Arch, n: nat, i: nat)
    requires Live(a, n) && i < n
    ensures Proceeds(After(a, i))
  {
  }

  /** A machine halts after one number of steps only. */
  lemma HaltsOnce(a: Arch, m: nat, n: nat)
    requires HaltsAfter(a, m) && HaltsAfter(a, n)
    ensures m == n
  {
    var i: nat, j: nat := m - 1, n - 1;
    if i < j {
      LiveAt(a, j, i);
    } else if j < i {
      LiveAt(a, i, j);
    }
  }

  lemma StepKeepsMemorySize(a: Arch)
    ensures |Step(a).memory| == |a.memory|
  {
    hide Decoded, EventOf, NextRegs, NextPc, NextWrites;
  }

  lemma {:induction false} MemorySizeIsConstant(a: Arch, n: nat)
    ensures |After(a, n).memory| == |a.memory|
  {
    hide Step;
    if n > 0 {
      MemorySizeIsConstant(a, n - 1);
      StepKeepsMemorySize(After(a, n - 1));
    }
  }
}
