/** Mixed-width memory traffic: what a byte holds after any sequence of stores, and what the write log records. */
module MemoryLaws {
  import opened Words
  import opened Memory
  import opened Instruction
  import opened Stages
  import opened Isa
  import opened Datapath

  /** A store of the `width` low-order bytes of `value`. */
  datatype Store = Store(address: Word, width: nat, value: bv32)

  predicate Fits(size: nat, store: Store) {
    (store.width == 1 || store.width == 2 || store.width == 4) && InBounds(size, store.address, store.width)
  }

  predicate Covers(store: Store, i: nat) {
    Index(store.address) <= i < Index(store.address) + store.width
  }

  /** One store, through the accessor of its width. */
  function Stored(memory: seq<Byte>, store: Store): seq<Byte>
    requires Fits(|memory|, store)
  {
    if store.width == 1 then WriteU8(memory, store.address, LowByte(store.value))
    else if store.width == 2 then WriteU16(memory, store.address, LowHalfWord(store.value))
    else WriteU32(memory, store.address, store.value)
  }

  lemma StoredKeepsSize(memory: seq<Byte>, store: Store)
    requires Fits(|memory|, store)
    ensures |Stored(memory, store)| == |memory|
  {
    hide Index, LowByte, LowHalfWord;
  }

  /** Memory after the stores, oldest first. */
  function StoredAll(memory: seq<Byte>, stores: seq<Store>): (after: seq<Byte>)
    requires forall store <- stores :: Fits(|memory|, store)
    ensures |after| == |memory|
  {
    if stores == [] then memory
    else
      var last := |stores| - 1;
      StoredKeepsSize(StoredAll(memory, stores[..last]), stores[last]);
      Stored(StoredAll(memory, stores[..last]), stores[last])
  }

  /** The last store that covers byte `i`, if there is one. */
  function LastWriter(stores: seq<Store>, i: nat): (writer: Option<Store>)
    ensures writer.Some? ==> writer.value in stores && Covers(writer.value, i)
  {
    if stores == [] then None
    else if Covers(stores[|stores| - 1], i) then Some(stores[|stores| - 1])
    else LastWriter(stores[..|stores| - 1], i)
  }

  lemma StoredByte(memory: seq<Byte>, store: Store, i: nat)
    requires Fits(|memory|, store) && i < |memory|
    ensures |Stored(memory, store)| == |memory|
    ensures Stored(memory, store)[i] ==
            if Covers(store, i) then ToBytes(store.value, store.width)[i - Index(store.address)] else memory[i]
  {
    StoredKeepsSize(memory, store);
    if store.width == 1 {
      WriteU8IsLittleEndian(memory, store.address, store.value);
    } else if store.width == 2 {
      WriteU16IsLittleEndian(memory, store.address, store.value);
    } else {
      WriteU32IsLittleEndian(memory, store.address, store.value);
    }
    hide Index, LowByte, LowHalfWord, WriteU8, WriteU16, WriteU32, ToBytes;
  }

  /**
   * After any stores of any widths at any alignment, each byte is the one its last writer put there, or the loaded
   * one; a load of any width then reads those bytes little-endian (ReadU8/16/32IsLittleEndian in `Memory`).
   */
  lemma {:induction false} LastStoreWins(memory: seq<Byte>, stores: seq<Store>, i: nat)
    requires i < |memory| && forall store <- stores :: Fits(|memory|, store)
    ensures StoredAll(memory, stores)[i] ==
            match LastWriter(stores, i)
            case Some(store) => ToBytes(store.value, store.width)[i - Index(store.address)]
            case None => memory[i]
  {
    hide Index, Fits, Stored, ToBytes;
    if stores != [] {
      var last := |stores| - 1;
      LastStoreWins(memory, stores[..last], i);
      StoredByte(StoredAll(memory, stores[..last]), stores[last], i);
    }
  }

  // Loads after stores

  /** What byte `i` holds after the stores: its last writer's byte, or the loaded one. */
  function ByteAfter(memory: seq<Byte>, stores: seq<Store>, i: nat): Byte
    requires i < |memory|
  {
    match LastWriter(stores, i)
    case Some(store) => ToBytes(store.value, store.width)[i - Index(store.address)]
    case None => memory[i]
  }

  function BytesAfter(memory: seq<Byte>, stores: seq<Store>, address: nat, count: nat): (bytes: seq<Byte>)
    requires address + count <= |memory|
    ensures |bytes| == count
  {
    seq(count, i requires 0 <= i < count => ByteAfter(memory, stores, address + i))
  }

  /**
   * A load of any width after any stores of any widths, at any alignment, returns the little-endian number of its
   * bytes as their last writers left them, extended as the kind of load says.
   */
  lemma LoadSeesLastStores(memory: seq<Byte>, stores: seq<Store>, address: Word, kind: InstructionKind)
    requires forall store <- stores :: Fits(|memory|, store)
    requires ClassOf(kind).Load? && InBounds(|memory|, address, AccessBytes(kind))
    ensures InBounds(|StoredAll(memory, stores)|, address, WidthInBytes(ControlOf(kind).memoryWidth))
    ensures ReadMemory(StoredAll(memory, stores), address, ControlOf(kind))
         == Word(Extended(kind, FromBytes(BytesAfter(memory, stores, Index(address), AccessBytes(kind)))))
  {
    hide Index, Fits, StoredAll, ToBytes, FromBytes, ReadMemory, Extended, LastWriter, ByteAfter, ControlOf;
    LoadIsAccess(kind);
    var after, start, count := StoredAll(memory, stores), Index(address), AccessBytes(kind);
    var held, expected := after[start..start + count], BytesAfter(memory, stores, start, count);
    forall i | 0 <= i < count
      ensures held[i] == expected[i]
    {
      HoldsByteAfter(memory, stores, start + i);
    }
    assert held == expected;
    LoadAgrees(after, address, kind);
  }

  lemma LoadIsAccess(kind: InstructionKind)
    requires ClassOf(kind).Load?
    ensures AccessBytes(kind) > 0 && WidthInBytes(ControlOf(kind).memoryWidth) == AccessBytes(kind)
  {
    WidthsAgree(kind);
  }

  lemma HoldsByteAfter(memory: seq<Byte>, stores: seq<Store>, i: nat)
    requires forall store <- stores :: Fits(|memory|, store)
    requires i < |memory|
    ensures StoredAll(memory, stores)[i] == ByteAfter(memory, stores, i)
  {
    LastStoreWins(memory, stores, i);
  }
}
