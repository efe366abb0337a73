/** The simulated CPU as the object the simulator updates in place (src/cpu.cpp). */
module Cpu {
  import opened Words
  import M = Memory
  import opened Memory
  import P = BranchPredictor
  import opened BranchPredictor
  import opened CpuState

  class Cpu {
    var mode: BranchPredictorType
    const predictor: P.BranchPredictor
    const regs: array<Word>
    var pc: Word
    var halted: bool
    const memory: array<Byte>
    var writes: seq<MemoryWrite>
    var stats: ExecutionStats

    ghost predicate Valid() {
      && regs.Length == 32 && predictor.Valid()
      && (regs as object) != memory && (regs as object) != predictor.counters
      && (memory as object) != predictor.counters
    }

    /** The objects a CPU is made of. */
    ghost function Parts(): set<object> {
      {this, regs, memory, predictor.counters}
    }

    ghost function State(): CpuState
      requires Valid()
      reads Parts()
    {
      CpuState(regs[..], pc, halted, memory[..], writes, stats, mode, predictor.Table())
    }

    constructor (memorySize: nat, mode: BranchPredictorType)
      ensures Valid() && fresh(Parts())
      ensures State() == AfterReset(seq(memorySize, _ => 0), mode)
      ensures Cleared(State()) && State().memory == seq(memorySize, _ => 0) && State().mode == mode
    {
      ResetClears(seq(memorySize, _ => 0), mode);
      this.mode := mode;
      predictor := new P.BranchPredictor();
      regs := new Word[32](_ => ZERO);
      pc := ZERO;
      halted := false;
      memory := new Byte[memorySize](_ => 0);
      writes := [];
      stats := NO_STATS;
    }

    /** Reset clears everything but memory. */
    method Reset()
      requires Valid()
      modifies this, regs, predictor.counters
      ensures Valid() && State() == AfterReset(old(State().memory), old(mode))
      ensures Cleared(State()) && State().memory == old(State().memory) && mode == old(mode)
    {
      ResetClears(memory[..], mode);
      for i := 0 to regs.Length
        invariant forall k | 0 <= k < i :: regs[k] == ZERO
        invariant mode == old(mode)
      {
        regs[i] := ZERO;
      }
      pc := ZERO;
      halted := false;
      writes := [];
      stats := NO_STATS;
      predictor.Reset();
      assert regs[..] == AfterReset(memory[..], mode).regs;
    }

    method ReadRegister(index: RegIndex) returns (value: Word)
      requires Valid()
      ensures value == ReadReg(State().regs, index)
    {
      if index == X0 {
        return ZERO;
      }
      value := regs[index.number as nat];
    }

    method WriteRegister(index: RegIndex, value: Word)
      requires Valid()
      modifies regs
      ensures State() == old(State()).(regs := WriteReg(old(State().regs), index, value))
    {
      if index == X0 {
        return;
      }
      regs[index.number as nat] := value;
      assert regs[..] == old(regs[..])[index.number as nat := value];
    }

    /** The bounds check, in a form that cannot overflow. */
    method ValidateMemoryAccess(address: Word, width: nat) returns (ok: bool)
      ensures ok == InBounds(memory.Length, address, width)
      ensures ok <==> width == 0 || address.bits as nat + width <= memory.Length
    {
      if width == 0 {
        return true;
      }
      var start := Index(address);
      return !(start > memory.Length || width > memory.Length - start);
    }

    method ReadU8(address: Word) returns (value: Option<Byte>)
      ensures value == if InBounds(memory.Length, address, 1) then Some(M.ReadU8(memory[..], address)) else None
    {
      var ok := ValidateMemoryAccess(address, 1);
      if !ok {
        return None;
      }
      value := Some(memory[Index(address)]);
    }

    method ReadU16(address: Word) returns (value: Option<bv16>)
      ensures value == if InBounds(memory.Length, address, 2) then Some(M.ReadU16(memory[..], address)) else None
    {
      hide JoinTwo, Index;
      var ok := ValidateMemoryAccess(address, 2);
      if !ok {
        return None;
      }
      var start := Index(address);
      value := Some(JoinTwo(memory[start], memory[start + 1]));
    }

    method ReadU32(address: Word) returns (value: Option<bv32>)
      ensures value == if InBounds(memory.Length, address, 4) then Some(M.ReadU32(memory[..], address)) else None
    {
      hide JoinFour, Index;
      var ok := ValidateMemoryAccess(address, 4);
      if !ok {
        return None;
      }
      var start := Index(address);
      value := Some(JoinFour(memory[start], memory[start + 1], memory[start + 2], memory[start + 3]));
    }

    method WriteU8(address: Word, value: Byte) returns (ok: bool)
      modifies this`writes, memory
      ensures ok == InBounds(memory.Length, address, 1)
      ensures memory[..] == if ok then M.WriteU8(old(memory[..]), address, value) else old(memory[..])
      ensures writes == if ok then old(writes) + [MemoryWrite(address, 1)] else old(writes)
    {
      ok := ValidateMemoryAccess(address, 1);
      if ok {
        memory[Index(address)] := value;
        RecordMemoryWrite(address, 1);
      }
    }

    method WriteU16(address: Word, value: bv16) returns (ok: bool)
      modifies this`writes, memory
      ensures ok == InBounds(memory.Length, address, 2)
      ensures memory[..] == if ok then M.WriteU16(old(memory[..]), address, value) else old(memory[..])
      ensures writes == if ok then old(writes) + [MemoryWrite(address, 2)] else old(writes)
    {
      hide LowByteOfHalf, HighByteOfHalf, Index;
      ok := ValidateMemoryAccess(address, 2);
      if ok {
        var start := Index(address);
        memory[start] := LowByteOfHalf(value);
        memory[start + 1] := HighByteOfHalf(value);
        RecordMemoryWrite(address, 2);
      }
    }

    method WriteU32(address: Word, value: bv32) returns (ok: bool)
      modifies this`writes, memory
      ensures ok == InBounds(memory.Length, address, 4)
      ensures memory[..] == if ok then M.WriteU32(old(memory[..]), address, value) else old(memory[..])
      ensures writes == if ok then old(writes) + [MemoryWrite(address, 4)] else old(writes)
    {
      hide LowByte, Index;
      ok := ValidateMemoryAccess(address, 4);
      if ok {
        var start := Index(address);
        memory[start] := LowByte(value);
        memory[start + 1] := LowByte(value >> 8);
        memory[start + 2] := LowByte(value >> 16);
        memory[start + 3] := LowByte(value >> 24);
        RecordMemoryWrite(address, 4);
      }
    }

    method RecordMemoryWrite(address: Word, byteCount: nat)
      modifies this`writes
      ensures writes == old(writes) + [MemoryWrite(address, byteCount)]
    {
      writes := writes + [MemoryWrite(address, byteCount)];
    }

    /** The copy behind `LoadProgram`. */
    method CopyTo(program: seq<Byte>, start: nat)
      requires start + |program| <= memory.Length
      modifies memory
      ensures memory[..] == Splice(old(memory[..]), start, program)
    {
      for i := 0 to |program|
        invariant memory[..start + i] == old(memory[..start]) + program[..i]
        invariant memory[start + i..] == old(memory[start + i..])
      {
        memory[start + i] := program[i];
      }
    }

    /** Loads a program into memory. An empty one changes nothing, and one that does not fit is refused. */
    method LoadProgram(program: seq<Byte>, baseAddress: Word) returns (ok: bool)
      requires Valid()
      modifies this, memory
      ensures Valid() && ok == InBounds(memory.Length, baseAddress, |program|)
      ensures ok <==> program == [] || baseAddress.bits as nat + |program| <= memory.Length
      ensures ok && program != [] ==>
                State() == old(State()).(memory := Splice(old(memory[..]), Index(baseAddress), program),
                                         pc := baseAddress, halted := false, writes := [])
      ensures !ok || program == [] ==> State() == old(State())
      ensures ok ==>
                forall i: nat | i < memory.Length ::
                  memory[i] == if baseAddress.bits as nat <= i < baseAddress.bits as nat + |program|
                               then program[i - baseAddress.bits as nat] else old(memory[i])
    {
      if program == [] {
        return true;
      }
      ok := ValidateMemoryAccess(baseAddress, |program|);
      if !ok {
        return;
      }
      CopyTo(program, Index(baseAddress));
      assert memory[..] == Splice(old(memory[..]), baseAddress.bits as nat, program);
      hide Index, Splice;
      SplicedBytes(old(memory[..]), Index(baseAddress), program);
      assert forall i: nat | i < memory.Length :: memory[i] == memory[..][i] && old(memory[i]) == old(memory[..])[i];
      pc := baseAddress;
      halted := false;
      writes := [];
    }

    method PredictBranch(branchPc: Word) returns (taken: bool)
      requires Valid()
      ensures taken == Predict(State().counters, mode, branchPc)
    {
      taken := predictor.PredictBranch(branchPc, mode);
    }

    method UpdateBranchPredictor(branchPc: Word, taken: bool)
      requires Valid()
      modifies predictor.counters
      ensures State() == old(State()).(counters := Trained(old(State().counters), mode, branchPc, taken))
    {
      predictor.Update(branchPc, taken, mode);
      assert memory[..] == old(memory[..]);
    }
  }
}
