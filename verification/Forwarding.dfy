/** Operand forwarding into EX (src/forwarding_unit.cpp). */
module Forwarding {
  import opened Words
  import opened PipelineRegisters

  datatype ForwardedOperands = ForwardedOperands(
    rs1Value: Word,
    rs2Value: Word,
    forwardedRs1: bool,
    forwardedRs2: bool)

  predicate CanForwardFromExMem(exMem: ExMem) {
    exMem.valid && exMem.control.regWrite && exMem.rd != X0 && !exMem.control.memRead
  }

  predicate CanForwardFromMemWb(memWb: MemWb) {
    memWb.valid && memWb.control.regWrite && memWb.rd != X0
  }

  function ExMemForwardValue(exMem: ExMem): Word {
    match exMem.control.writebackSource
    case Alu => exMem.aluResult
    case PcPlus4 => exMem.pcPlus4
    case Immediate => exMem.immediate
    case Memory | NoSource => ZERO
  }

  /** The value MEM/WB writes to its destination; WB selects it and EX may forward it. */
  function WritebackValue(memWb: MemWb): Word {
    match memWb.control.writebackSource
    case Alu => memWb.aluResult
    case Memory => memWb.memoryData
    case PcPlus4 => memWb.pcPlus4
    case Immediate => memWb.immediate
    case NoSource => ZERO
  }

  /** One operand: the younger producer in EX/MEM wins over MEM/WB, and both win over the value read in ID. */
  function ForwardedOperand(rs: RegIndex, value: Word, exMem: ExMem, memWb: MemWb): (operand: (Word, bool)) {
    if CanForwardFromExMem(exMem) && rs != X0 && rs == exMem.rd then (ExMemForwardValue(exMem), true)
    else if CanForwardFromMemWb(memWb) && rs != X0 && rs == memWb.rd then (WritebackValue(memWb), true)
    else (value, false)
  }

  function Forwarded(idEx: IdEx, exMem: ExMem, memWb: MemWb): ForwardedOperands {
    var first := ForwardedOperand(idEx.rs1, idEx.rs1Value, exMem, memWb);
    var second := ForwardedOperand(idEx.rs2, idEx.rs2Value, exMem, memWb);
    ForwardedOperands(first.0, second.0, first.1, second.1)
  }

  /** An instruction ahead of EX has the value that it will write to this register, which is not x0. */
  predicate IsProduced(rs: RegIndex, exMem: ExMem, memWb: MemWb) {
    && rs.number != 0
    && ((exMem.valid && exMem.control.regWrite && !exMem.control.memRead && exMem.rd == rs)
        || (memWb.valid && memWb.control.regWrite && memWb.rd == rs))
  }

  /** The operands forwarded are exactly those produced ahead; the others are as ID read them. */
  lemma ForwardedExactly(idEx: IdEx, exMem: ExMem, memWb: MemWb)
    ensures var operands := Forwarded(idEx, exMem, memWb);
            && (operands.forwardedRs1 <==> IsProduced(idEx.rs1, exMem, memWb))
            && (operands.forwardedRs2 <==> IsProduced(idEx.rs2, exMem, memWb))
            && (!operands.forwardedRs1 ==> operands.rs1Value == idEx.rs1Value)
            && (!operands.forwardedRs2 ==> operands.rs2Value == idEx.rs2Value)
  {
    hide ExMemForwardValue, WritebackValue;
  }

  /** Resolves both operands the way the forwarding unit does, overwriting them producer by producer. */
  method ResolveForwarding(idEx: IdEx, exMem: ExMem, memWb: MemWb) returns (operands: ForwardedOperands)
    ensures operands == Forwarded(idEx, exMem, memWb)
  {
    hide CanForwardFromExMem, CanForwardFromMemWb, ExMemForwardValue, WritebackValue;
    var rs1Value, rs2Value := idEx.rs1Value, idEx.rs2Value;
    var forwardedRs1, forwardedRs2 := false, false;
    if CanForwardFromExMem(exMem) {
      var value := ExMemForwardValue(exMem);
      if idEx.rs1 != X0 && idEx.rs1 == exMem.rd {
        rs1Value, forwardedRs1 := value, true;
      }
      if idEx.rs2 != X0 && idEx.rs2 == exMem.rd {
        rs2Value, forwardedRs2 := value, true;
      }
    }
    if CanForwardFromMemWb(memWb) {
      var value := WritebackValue(memWb);
      if !forwardedRs1 && idEx.rs1 != X0 && idEx.rs1 == memWb.rd {
        rs1Value, forwardedRs1 := value, true;
      }
      if !forwardedRs2 && idEx.rs2 != X0 && idEx.rs2 == memWb.rd {
        rs2Value, forwardedRs2 := value, true;
      }
    }
    operands := ForwardedOperands(rs1Value, rs2Value, forwardedRs1, forwardedRs2);
  }
}
