/** Byte-addressed little-endian memory with its bounds check (src/cpu.cpp). */
module Memory {
  import opened Words

  datatype MemoryWrite = MemoryWrite(address: Word, byteCount: nat)

  /** The bounds check every access passes before it touches memory. */
  predicate InBounds(size: nat, address: Word, width: nat) {
    width == 0 || Index(address) + width <= size
  }

  /** The integer conversions between a word and the narrower values memory holds. */
  function LowByte(value: bv32): Byte {
    (value & 0xFF) as Byte
  }

  function LowHalfWord(value: bv32): bv16 {
    (value & 0xFFFF) as bv16
  }

  function WidenByte(value: Byte): bv32 {
    value as bv32
  }

  function WidenHalfWord(value: bv16): bv32 {
    value as bv32
  }

  function JoinTwo(low: Byte, high: Byte): bv16 {
    (low as bv16) | ((high as bv16) << 8)
  }

  function JoinFour(b0: Byte, b1: Byte, b2: Byte, b3: Byte): bv32 {
    (b0 as bv32) | ((b1 as bv32) << 8) | ((b2 as bv32) << 16) | ((b3 as bv32) << 24)
  }

  function HighByteOfHalf(value: bv16): Byte {
    ((value >> 8) & 0xFF) as Byte
  }

  function LowByteOfHalf(value: bv16): Byte {
    (value & 0xFF) as Byte
  }

  function ReadU8(memory: seq<Byte>, address: Word): Byte
    requires InBounds(|memory|, address, 1)
  {
    memory[Index(address)]
  }

  function ReadU16(memory: seq<Byte>, address: Word): bv16
    requires InBounds(|memory|, address, 2)
  {
    JoinTwo(memory[Index(address)], memory[Index(address) + 1])
  }

  function ReadU32(memory: seq<Byte>, address: Word): bv32
    requires InBounds(|memory|, address, 4)
  {
    var a := Index(address);
    JoinFour(memory[a], memory[a + 1], memory[a + 2], memory[a + 3])
  }

  function WriteU8(memory: seq<Byte>, address: Word, value: Byte): seq<Byte>
    requires InBounds(|memory|, address, 1)
  {
    memory[Index(address) := value]
  }

  function WriteU16(memory: seq<Byte>, address: Word, value: bv16): seq<Byte>
    requires InBounds(|memory|, address, 2)
  {
    var a := Index(address);
    memory[a := LowByteOfHalf(value)][a + 1 := HighByteOfHalf(value)]
  }

  function WriteU32(memory: seq<Byte>, address: Word, value: bv32): seq<Byte>
    requires InBounds(|memory|, address, 4)
  {
    var a := Index(address);
    memory[a := LowByte(value)][a + 1 := LowByte(value >> 8)]
          [a + 2 := LowByte(value >> 16)][a + 3 := LowByte(value >> 24)]
  }

  /** A number in base 256: its lowest digit and the number the other digits make. */
  function WithLowByte(low: Byte, rest: bv32): bv32 {
    (low as bv32) | (rest << 8)
  }

  /** The word whose little-endian bytes are `bytes`, least significant first. */
  function FromBytes(bytes: seq<Byte>): bv32 {
    if bytes == [] then 0 else WithLowByte(bytes[0], FromBytes(bytes[1..]))
  }

  function WithoutLowByte(value: bv32): bv32 {
    value >> 8
  }

  /** The `count` low-order bytes of `value`, least significant first. */
  function ToBytes(value: bv32, count: nat): (bytes: seq<Byte>)
    ensures |bytes| == count
  {
    if count == 0 then [] else [LowByte(value)] + ToBytes(WithoutLowByte(value), count - 1)
  }

  /** Memory with `bytes` stored from `address` on. */
  function Splice(memory: seq<Byte>, address: nat, bytes: seq<Byte>): (spliced: seq<Byte>)
    requires address + |bytes| <= |memory|
    ensures |spliced| == |memory|
  {
    memory[..address] + bytes + memory[address + |bytes|..]
  }

  lemma ByteIsDigit(b0: Byte)
    ensures WithLowByte(b0, 0) == WidenByte(b0)
  {
  }

  lemma TwoAreDigits(b0: Byte, b1: Byte)
    ensures WithLowByte(b0, WithLowByte(b1, 0)) == WidenHalfWord(JoinTwo(b0, b1))
  {
  }

  lemma FourAreDigits(b0: Byte, b1: Byte, b2: Byte, b3: Byte)
    ensures WithLowByte(b0, WithLowByte(b1, WithLowByte(b2, WithLowByte(b3, 0)))) == JoinFour(b0, b1, b2, b3)
  {
  }

  lemma FromOneByte(b: seq<Byte>)
    requires |b| == 1
    ensures FromBytes(b) == WithLowByte(b[0], 0)
  {
    hide WithLowByte;
    assert FromBytes(b[1..]) == 0;
  }

  lemma FromTwoBytes(b: seq<Byte>)
    requires |b| == 2
    ensures FromBytes(b) == WithLowByte(b[0], WithLowByte(b[1], 0))
  {
    hide WithLowByte;
    FromOneByte(b[1..]);
  }

  lemma FromFourBytes(b: seq<Byte>)
    requires |b| == 4
    ensures FromBytes(b) == WithLowByte(b[0], WithLowByte(b[1], WithLowByte(b[2], WithLowByte(b[3], 0))))
  {
    hide WithLowByte;
    FromTwoBytes(b[2..]);
    assert b[1..][1..] == b[2..];
  }

  lemma DigitsBelow(value: bv32)
    ensures LowByte(WithoutLowByte(value)) == LowByte(value >> 8)
    ensures LowByte(WithoutLowByte(WithoutLowByte(value))) == LowByte(value >> 16)
    ensures LowByte(WithoutLowByte(WithoutLowByte(WithoutLowByte(value)))) == LowByte(value >> 24)
    ensures LowByteOfHalf(LowHalfWord(value)) == LowByte(value)
    ensures HighByteOfHalf(LowHalfWord(value)) == LowByte(value >> 8)
  {
  }

  lemma ToOneByte(value: bv32)
    ensures ToBytes(value, 1) == [LowByte(value)]
  {
    hide LowByte, WithoutLowByte;
  }

  lemma ToTwoBytes(value: bv32)
    ensures ToBytes(value, 2) == [LowByte(value), LowByte(WithoutLowByte(value))]
  {
    hide LowByte, WithoutLowByte;
    ToOneByte(WithoutLowByte(value));
  }

  lemma ToFourBytes(value: bv32)
    ensures ToBytes(value, 4) ==
            [LowByte(value), LowByte(WithoutLowByte(value)), LowByte(WithoutLowByte(WithoutLowByte(value))),
             LowByte(WithoutLowByte(WithoutLowByte(WithoutLowByte(value))))]
  {
    hide LowByte, WithoutLowByte;
    var upper := WithoutLowByte(value);
    assert ToBytes(upper, 3) == [LowByte(upper)] + ToBytes(WithoutLowByte(upper), 2);
    ToTwoBytes(WithoutLowByte(upper));
  }

  lemma SpliceFirst(memory: seq<Byte>, address: nat, bytes: seq<Byte>)
    requires bytes != [] && address + |bytes| <= |memory|
    ensures Splice(memory, address, bytes) == Splice(memory[address := bytes[0]], address + 1, bytes[1..])
  {
  }

  lemma SplicedBytes(memory: seq<Byte>, address: nat, bytes: seq<Byte>)
    requires address + |bytes| <= |memory|
    ensures forall i: nat | i < |memory| ::
              Splice(memory, address, bytes)[i] ==
              if address <= i < address + |bytes| then bytes[i - address] else memory[i]
  {
  }

  lemma SpliceNothing(memory: seq<Byte>, address: nat)
    requires address <= |memory|
    ensures Splice(memory, address, []) == memory
  {
  }

  lemma SpliceTwo(memory: seq<Byte>, address: nat, bytes: seq<Byte>)
    requires |bytes| == 2 && address + 2 <= |memory|
    ensures memory[address := bytes[0]][address + 1 := bytes[1]] == Splice(memory, address, bytes)
  {
    SpliceFirst(memory, address, bytes);
    SpliceFirst(memory[address := bytes[0]], address + 1, bytes[1..]);
    SpliceNothing(memory[address := bytes[0]][address + 1 := bytes[1]], address + 2);
  }

  lemma SpliceFour(memory: seq<Byte>, address: nat, bytes: seq<Byte>)
    requires |bytes| == 4 && address + 4 <= |memory|
    ensures memory[address := bytes[0]][address + 1 := bytes[1]][address + 2 := bytes[2]][address + 3 := bytes[3]]
         == Splice(memory, address, bytes)
  {
    SpliceFirst(memory, address, bytes);
    SpliceFirst(memory[address := bytes[0]], address + 1, bytes[1..]);
    var low := memory[address := bytes[0]][address + 1 := bytes[1]];
    SpliceTwo(low, address + 2, bytes[2..]);
    assert bytes[1..][1..] == bytes[2..];
  }

  lemma ReadU8IsLittleEndian(memory: seq<Byte>, address: Word)
    requires InBounds(|memory|, address, 1)
    ensures WidenByte(ReadU8(memory, address)) == FromBytes(memory[Index(address)..Index(address) + 1])
  {
    hide FromBytes, Index, WithLowByte, WidenByte;
    FromOneByte(memory[Index(address)..Index(address) + 1]);
    ByteIsDigit(memory[Index(address)]);
  }

  lemma ReadU16IsLittleEndian(memory: seq<Byte>, address: Word)
    requires InBounds(|memory|, address, 2)
    ensures WidenHalfWord(ReadU16(memory, address)) == FromBytes(memory[Index(address)..Index(address) + 2])
  {
    hide FromBytes, Index, WithLowByte, JoinTwo, WidenHalfWord;
    FromTwoBytes(memory[Index(address)..Index(address) + 2]);
    TwoAreDigits(memory[Index(address)], memory[Index(address) + 1]);
  }

  lemma ReadU32IsLittleEndian(memory: seq<Byte>, address: Word)
    requires InBounds(|memory|, address, 4)
    ensures ReadU32(memory, address) == FromBytes(memory[Index(address)..Index(address) + 4])
  {
    hide FromBytes, Index, WithLowByte, JoinFour;
    var a := Index(address);
    FromFourBytes(memory[a..a + 4]);
    FourAreDigits(memory[a], memory[a + 1], memory[a + 2], memory[a + 3]);
  }

  lemma WriteU8IsLittleEndian(memory: seq<Byte>, address: Word, value: bv32)
    requires InBounds(|memory|, address, 1)
    ensures WriteU8(memory, address, LowByte(value)) == Splice(memory, Index(address), ToBytes(value, 1))
  {
    hide LowByte, Index;
    ToOneByte(value);
  }

  lemma WriteU16IsLittleEndian(memory: seq<Byte>, address: Word, value: bv32)
    requires InBounds(|memory|, address, 2)
    ensures WriteU16(memory, address, LowHalfWord(value)) == Splice(memory, Index(address), ToBytes(value, 2))
  {
    hide ToBytes, Splice, LowByte, WithoutLowByte, LowHalfWord, LowByteOfHalf, HighByteOfHalf, Index;
    ToTwoBytes(value);
    DigitsBelow(value);
    SpliceTwo(memory, Index(address), ToBytes(value, 2));
  }

  lemma WriteU32IsLittleEndian(memory: seq<Byte>, address: Word, value: bv32)
    requires InBounds(|memory|, address, 4)
    ensures WriteU32(memory, address, value) == Splice(memory, Index(address), ToBytes(value, 4))
  {
    hide ToBytes, Splice, LowByte, WithoutLowByte, Index;
    ToFourBytes(value);
    DigitsBelow(value);
    SpliceFour(memory, Index(address), ToBytes(value, 4));
  }

  /** Taking a word apart and putting it together again gives the word back. */
  lemma BytesRoundTrip(value: bv32)
    ensures FromBytes(ToBytes(value, 4)) == value
  {
    ToFourBytes(value);
    FromFourBytes(ToBytes(value, 4));
    hide FromBytes, ToBytes;
  }
}
