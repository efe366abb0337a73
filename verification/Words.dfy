/** Machine-level types shared by every component, and the register file. */
module Words {

  /** A 32-bit machine word, as `uint32_t` holds it. */
  datatype Word = Word(bits: bv32)

  const ZERO := Word(0)

  type Byte = bv8

  /** A register number. Every register number the simulator uses is a five-bit instruction field. */
  datatype RegIndex = X(number: bv5)

  const X0 := X(0)

  type RegFile = regs: seq<Word> | |regs| == 32 witness seq(32, _ => ZERO)

  // Operations on bit patterns; addition and subtraction wrap around, as they do on `uint32_t`

  function Sum(x: bv32, y: bv32): bv32 {
    x + y
  }

  function Difference(x: bv32, y: bv32): bv32 {
    x - y
  }

  function Conjunction(x: bv32, y: bv32): bv32 {
    x & y
  }

  function Disjunction(x: bv32, y: bv32): bv32 {
    x | y
  }

  function ExclusiveDisjunction(x: bv32, y: bv32): bv32 {
    x ^ y
  }

  predicate Less(x: bv32, y: bv32) {
    x < y
  }

  function NumberOf(x: bv32): nat {
    x as nat
  }

  /** The logical shifts. */
  function ShiftLeft(x: bv32, amount: bv5): bv32 {
    x << amount
  }

  function ShiftRight(x: bv32, amount: bv5): bv32 {
    x >> amount
  }

  // The same on words

  function Plus(x: Word, y: Word): Word {
    Word(Sum(x.bits, y.bits))
  }

  function Minus(x: Word, y: Word): Word {
    Word(Difference(x.bits, y.bits))
  }

  function BitAnd(x: Word, y: Word): Word {
    Word(Conjunction(x.bits, y.bits))
  }

  function BitOr(x: Word, y: Word): Word {
    Word(Disjunction(x.bits, y.bits))
  }

  function BitXor(x: Word, y: Word): Word {
    Word(ExclusiveDisjunction(x.bits, y.bits))
  }

  predicate Below(x: Word, y: Word) {
    Less(x.bits, y.bits)
  }

  /** A word used as an index into memory. */
  function Index(address: Word): nat {
    NumberOf(address.bits)
  }

  /** The address of the next instruction in memory order. */
  function PlusFour(pc: Word): Word {
    Word(Sum(pc.bits, 4))
  }

  datatype Option<+T> = None | Some(value: T)

  /** Reads a register; x0 reads as zero whatever is stored in its slot. */
  function ReadReg(regs: RegFile, index: RegIndex): Word {
    if index == X0 then ZERO else regs[index.number as nat]
  }

  /** Writes a register; writes to x0 are dropped. */
  function WriteReg(regs: RegFile, index: RegIndex, value: Word): RegFile {
    if index == X0 then regs else regs[index.number as nat := value]
  }

  lemma ReadAfterWrite(regs: RegFile, rd: RegIndex, value: Word, rs: RegIndex)
    ensures ReadReg(WriteReg(regs, rd, value), rs) == if rd != X0 && rs == rd then value else ReadReg(regs, rs)
  {
  }
}
