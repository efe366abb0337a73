/** Bit-field extraction and immediate assembly (src/decoder.cpp). */
module Decoder {

  /** Bits `high` down to `low` of `value`, right-aligned. */
  function Bits(value: bv32, high: bv32, low: bv32): (field: bv32)
    requires low <= high < 32 && high - low < 31
  {
    (value >> low) & ((1 << (high - low + 1)) - 1)
  }

  function ExtractOpcode(instruction: bv32): bv7 {
    Bits(instruction, 6, 0) as bv7
  }

  function ExtractRd(instruction: bv32): bv5 {
    Bits(instruction, 11, 7) as bv5
  }

  function ExtractFunct3(instruction: bv32): bv3 {
    Bits(instruction, 14, 12) as bv3
  }

  function ExtractRs1(instruction: bv32): bv5 {
    Bits(instruction, 19, 15) as bv5
  }

  function ExtractRs2(instruction: bv32): bv5 {
    Bits(instruction, 24, 20) as bv5
  }

  function ExtractFunct7(instruction: bv32): bv7 {
    Bits(instruction, 31, 25) as bv7
  }

  /** The low `bitCount` bits of `value` as a signed number, in two's complement over 32 bits. */
  function SignExtend(value: bv32, bitCount: bv32): bv32
    requires 1 <= bitCount < 32
  {
    var signBit: bv32 := 1 << (bitCount - 1);
    var mask: bv32 := (1 << bitCount) - 1;
    var field := value & mask;
    if field & signBit == 0 then field else field | !mask
  }

  /** The bits of the immediate as each format scatters them, put in order. */
  function FieldI(instruction: bv32): bv32 {
    Bits(instruction, 31, 20)
  }

  function FieldS(instruction: bv32): bv32 {
    (Bits(instruction, 31, 25) << 5) | Bits(instruction, 11, 7)
  }

  function FieldB(instruction: bv32): bv32 {
    (Bits(instruction, 31, 31) << 12) | (Bits(instruction, 7, 7) << 11)
    | (Bits(instruction, 30, 25) << 5) | (Bits(instruction, 11, 8) << 1)
  }

  function FieldJ(instruction: bv32): bv32 {
    (Bits(instruction, 31, 31) << 20) | (Bits(instruction, 19, 12) << 12)
    | (Bits(instruction, 20, 20) << 11) | (Bits(instruction, 30, 21) << 1)
  }

  function ImmediateI(instruction: bv32): bv32 {
    SignExtend(FieldI(instruction), 12)
  }

  function ImmediateS(instruction: bv32): bv32 {
    SignExtend(FieldS(instruction), 12)
  }

  function ImmediateB(instruction: bv32): bv32 {
    SignExtend(FieldB(instruction), 13)
  }

  function ImmediateU(instruction: bv32): bv32 {
    instruction & 0xFFFF_F000
  }

  function ImmediateJ(instruction: bv32): bv32 {
    SignExtend(FieldJ(instruction), 21)
  }
}
