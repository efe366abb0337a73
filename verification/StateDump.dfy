/** The memory ranges of an architectural-state dump, brought into normal form (src/state_dump.cpp). */
module StateDump {
  import opened Words
  import opened Memory
  import C = Cpu
  import opened Stages
  import opened MachineLaws

  /** Addresses and counts are 32-bit numbers: a larger memory would let the counter that marks bytes wrap around. */
  const ADDRESS_SPACE: nat := 0x1_0000_0000

  /** Any numbers; the ranges that end within memory are the ones that 32-bit fields can hold. */
  datatype MemoryDumpRange = MemoryDumpRange(startAddress: nat, byteCount: nat)
  {
    function End(): nat {
      startAddress + byteCount
    }

    predicate Contains(i: nat) {
      startAddress <= i < End()
    }
  }

  ghost predicate Covered(ranges: seq<MemoryDumpRange>, i: nat) {
    exists k: nat :: k < |ranges| && ranges[k].Contains(i)
  }

  ghost predicate SameBytes(r: seq<MemoryDumpRange>, s: seq<MemoryDumpRange>) {
    forall i: nat :: Covered(r, i) <==> Covered(s, i)
  }

  /** Every range ends within memory. */
  ghost predicate AllFit(ranges: seq<MemoryDumpRange>, size: nat) {
    forall k: nat | k < |ranges| :: ranges[k].End() <= size
  }

  /** Normal form: no range is empty, and they ascend with a gap between any two. */
  ghost predicate IsNormal(ranges: seq<MemoryDumpRange>) {
    && (forall k: nat | k < |ranges| :: ranges[k].byteCount > 0)
    && (forall j: nat, k: nat | j < k < |ranges| :: ranges[j].End() < ranges[k].startAddress)
  }

  /** The bytes to dump: the requested ones or, without a request, those that the write log covers. */
  ghost predicate IsSelected(writes: seq<MemoryWrite>, requested: seq<MemoryDumpRange>, i: nat) {
    if requested == [] then exists j: nat :: j < |writes| && LogCovers(writes[j], i) else Covered(requested, i)
  }

  /** No range to dump exceeds memory. */
  ghost predicate SelectionFits(writes: seq<MemoryWrite>, requested: seq<MemoryDumpRange>, size: nat) {
    if requested == [] then LogFits(writes, size) else AllFit(requested, size)
  }

  /** `result` is the normal form of what is dumped, or none when a range does not fit. */
  ghost predicate Normalizes(size: nat, writes: seq<MemoryWrite>, requested: seq<MemoryDumpRange>,
                             result: Option<seq<MemoryDumpRange>>) {
    && (result.Some? <==> SelectionFits(writes, requested, size))
    && (result.Some? ==>
          && IsNormal(result.value) && AllFit(result.value, size)
          && forall i: nat :: Covered(result.value, i) <==> IsSelected(writes, requested, i))
  }

  /** The write log as ranges. */
  function LoggedRanges(writes: seq<MemoryWrite>): seq<MemoryDumpRange> {
    seq(|writes|, k requires 0 <= k < |writes| => MemoryDumpRange(Index(writes[k].address), writes[k].byteCount))
  }

  lemma LogAsRanges(writes: seq<MemoryWrite>, size: nat)
    ensures AllFit(LoggedRanges(writes), size) <==> LogFits(writes, size)
    ensures forall i: nat :: Covered(LoggedRanges(writes), i)
                        <==> exists j: nat :: j < |writes| && LogCovers(writes[j], i)
  {
    hide Index;
    var ranges := LoggedRanges(writes);
    assert forall k: nat | k < |writes| ::
        ranges[k].End() == Index(writes[k].address) + writes[k].byteCount;
    forall i: nat
      ensures Covered(ranges, i) <==> exists j: nat :: j < |writes| && LogCovers(writes[j], i)
    {
      if k: nat :| k < |ranges| && ranges[k].Contains(i) {
        assert LogCovers(writes[k], i);
      }
      if j: nat :| j < |writes| && LogCovers(writes[j], i) {
        assert ranges[j].Contains(i);
      }
    }
  }

  lemma SelectionAsRanges(writes: seq<MemoryWrite>, requested: seq<MemoryDumpRange>, size: nat)
    ensures var ranges := if requested == [] then LoggedRanges(writes) else requested;
            && (AllFit(ranges, size) <==> SelectionFits(writes, requested, size))
            && forall i: nat :: Covered(ranges, i) <==> IsSelected(writes, requested, i)
  {
    hide AllFit, LogFits, Covered, LogCovers, LoggedRanges;
    LogAsRanges(writes, size);
  }

  /** Marks the bytes of one range; it fails, before it marks any, when the range does not fit. */
  method MarkRange(selected: array<bool>, range: MemoryDumpRange) returns (ok: bool)
    requires selected.Length < ADDRESS_SPACE
    modifies selected
    ensures ok == (range.End() <= selected.Length)
    ensures forall i: nat | i < selected.Length :: selected[i] == (old(selected[i]) || (ok && range.Contains(i)))
  {
    var end := range.End();
    if end > selected.Length {
      return false;
    }
    var address := range.startAddress;
    while address < end
      invariant range.startAddress <= address <= end
      invariant forall i: nat | i < selected.Length ::
                  selected[i] == (old(selected[i]) || range.startAddress <= i < address)
    {
      selected[address] := true;
      address := (address + 1) % ADDRESS_SPACE;
    }
    ok := true;
  }

  lemma CoveredByOneMore(ranges: seq<MemoryDumpRange>, range: MemoryDumpRange, i: nat)
    ensures Covered(ranges + [range], i) <==> Covered(ranges, i) || range.Contains(i)
  {
    var more := ranges + [range];
    if k: nat :| k < |more| && more[k].Contains(i) {
      assert k < |ranges| ==> ranges[k].Contains(i);
    }
    if k: nat :| k < |ranges| && ranges[k].Contains(i) {
      assert more[k].Contains(i);
    }
    assert more[|ranges|] == range;
  }

  method MarkRanges(selected: array<bool>, ranges: seq<MemoryDumpRange>) returns (ok: bool)
    requires selected.Length < ADDRESS_SPACE
    requires forall i: nat | i < selected.Length :: !selected[i]
    modifies selected
    ensures ok <==> AllFit(ranges, selected.Length)
    ensures ok ==> forall i: nat | i < selected.Length :: selected[i] <==> Covered(ranges, i)
  {
    hide Covered;
    NothingCovered();
    for n := 0 to |ranges|
      invariant AllFit(ranges[..n], selected.Length)
      invariant forall i: nat | i < selected.Length :: selected[i] <==> Covered(ranges[..n], i)
    {
      ok := MarkRange(selected, ranges[n]);
      if !ok {
        return;
      }
      assert ranges[..n + 1] == ranges[..n] + [ranges[n]];
      forall i: nat | i < selected.Length
        ensures Covered(ranges[..n + 1], i) <==> Covered(ranges[..n], i) || ranges[n].Contains(i)
      {
        CoveredByOneMore(ranges[..n], ranges[n], i);
      }
    }
    assert ranges[..|ranges|] == ranges;
    ok := true;
  }

  lemma NothingCovered()
    ensures forall i: nat :: !Covered([], i)
  {
  }

  /** The maximal runs of marked bytes, in ascending order. */
  method CollectRuns(selected: array<bool>) returns (runs: seq<MemoryDumpRange>)
    requires selected.Length < ADDRESS_SPACE
    ensures IsNormal(runs) && AllFit(runs, selected.Length)
    ensures forall i: nat | i < selected.Length :: Covered(runs, i) <==> selected[i]
  {
    hide Covered;
    runs := [];
    NothingCovered();
    var address: nat := 0;
    while address < selected.Length
      invariant address <= selected.Length
      invariant IsNormal(runs) && AllFit(runs, address)
      invariant address < selected.Length && selected[address] ==> AllEndBefore(runs, address)
      invariant forall i: nat | i < selected.Length :: Covered(runs, i) <==> i < address && selected[i]
    {
      ghost var before := address;
      while address < selected.Length && !selected[address]
        invariant before <= address <= selected.Length
        invariant forall i: nat | before <= i < address :: !selected[i]
      {
        address := address + 1;
      }
      if address == selected.Length {
        break;
      }
      var start := address;
      while address < selected.Length && selected[address]
        invariant start <= address <= selected.Length
        invariant forall i: nat | start <= i < address :: selected[i]
      {
        address := address + 1;
      }
      var run := MemoryDumpRange(start % ADDRESS_SPACE, (address - start) % ADDRESS_SPACE);
      forall i: nat | i < selected.Length
        ensures Covered(runs + [run], i) <==> Covered(runs, i) || run.Contains(i)
      {
        CoveredByOneMore(runs, run, i);
      }
      runs := runs + [run];
    }
  }

  ghost predicate AllEndBefore(ranges: seq<MemoryDumpRange>, address: nat) {
    forall k: nat | k < |ranges| :: ranges[k].End() < address
  }

  method NormalizeMemoryRanges(cpu: C.Cpu, requested: seq<MemoryDumpRange>)
    returns (result: Option<seq<MemoryDumpRange>>)
    requires cpu.Valid() && cpu.memory.Length < ADDRESS_SPACE
    ensures Normalizes(cpu.memory.Length, cpu.writes, requested, result)
  {
    hide IsNormal, Covered, AllFit, LoggedRanges, SelectionFits, IsSelected;
    SelectionAsRanges(cpu.writes, requested, cpu.memory.Length);
    var selected := new bool[cpu.memory.Length](_ => false);
    var ranges := if requested == [] then LoggedRanges(cpu.writes) else requested;
    var ok := MarkRanges(selected, ranges);
    if !ok {
      return None;
    }
    var runs := CollectRuns(selected);
    FittingCoverNothingBeyond(ranges, selected.Length);
    FittingCoverNothingBeyond(runs, selected.Length);
    result := Some(runs);
  }

  lemma FittingCoverNothingBeyond(ranges: seq<MemoryDumpRange>, size: nat)
    requires AllFit(ranges, size)
    ensures forall i: nat | i >= size :: !Covered(ranges, i)
  {
  }

  // The normal form is canonical

  lemma FirstByte(r: seq<MemoryDumpRange>, i: nat)
    requires IsNormal(r) && r != []
    ensures Covered(r, r[0].startAddress)
    ensures Covered(r, i) ==> r[0].startAddress <= i
    ensures !Covered(r, r[0].End())
  {
    assert r[0].Contains(r[0].startAddress);
  }

  lemma FirstRange(r: seq<MemoryDumpRange>, i: nat)
    requires IsNormal(r) && r != []
    ensures Covered(r, i) <==> r[0].Contains(i) || Covered(r[1..], i)
    ensures IsNormal(r[1..])
    ensures Covered(r[1..], i) ==> r[0].End() < i
  {
    if k: nat :| k < |r| && r[k].Contains(i) {
      assert k > 0 ==> r[1..][k - 1].Contains(i);
    }
    if k: nat :| k < |r[1..]| && r[1..][k].Contains(i) {
      assert r[k + 1].Contains(i);
    }
  }

  lemma SameFirstRange(r: seq<MemoryDumpRange>, s: seq<MemoryDumpRange>)
    requires IsNormal(r) && IsNormal(s) && r != [] && s != [] && SameBytes(r, s)
    ensures r[0].startAddress == s[0].startAddress && r[0].End() <= s[0].End()
  {
    hide IsNormal, Covered;
    FirstByte(r, s[0].startAddress);
    FirstByte(s, r[0].startAddress);
    FirstRange(r, s[0].End());
  }

  /** Only one sequence in normal form covers a given set of bytes. */
  lemma {:induction false} NormalFormIsUnique(r: seq<MemoryDumpRange>, s: seq<MemoryDumpRange>)
    requires IsNormal(r) && IsNormal(s) && SameBytes(r, s)
    ensures r == s
  {
    if r == [] || s == [] {
      if r != [] {
        FirstByte(r, 0);
      }
      if s != [] {
        FirstByte(s, 0);
      }
    } else {
      SameFirstRange(r, s);
      SameFirstRange(s, r);
      forall i: nat
        ensures Covered(r[1..], i) <==> Covered(s[1..], i)
      {
        FirstRange(r, i);
        FirstRange(s, i);
      }
      NormalFormIsUnique(r[1..], s[1..]);
    }
  }

  /** Two non-empty requests for the same bytes are dumped identically, in whatever pieces they name them. */
  lemma DumpIsCanonical(size: nat, log1: seq<MemoryWrite>, log2: seq<MemoryWrite>,
                        request1: seq<MemoryDumpRange>, request2: seq<MemoryDumpRange>,
                        dump1: seq<MemoryDumpRange>, dump2: seq<MemoryDumpRange>)
    requires request1 != [] && request2 != [] && SameBytes(request1, request2)
    requires Normalizes(size, log1, request1, Some(dump1)) && Normalizes(size, log2, request2, Some(dump2))
    ensures dump1 == dump2
  {
    hide Covered, IsNormal, AllFit;
    NormalFormIsUnique(dump1, dump2);
  }

  /**
   * Normalising a result again gives it back, exactly when it is not empty or the log asks for nothing: an empty
   * result is taken for no request at all, and the log is dumped instead.
   */
  lemma NormalisingAgain(size: nat, log: seq<MemoryWrite>, request: seq<MemoryDumpRange>, dump: seq<MemoryDumpRange>,
                         again: Option<seq<MemoryDumpRange>>)
    requires Normalizes(size, log, request, Some(dump)) && Normalizes(size, log, dump, again)
    ensures again == Some(dump) <==>
            dump != [] || (forall k: nat | k < |log| :: log[k].byteCount == 0 && Index(log[k].address) <= size)
  {
    hide Index;
    if dump != [] {
      hide Covered, IsNormal, AllFit, LogCovers, LogFits;
      NormalFormIsUnique(dump, again.value);
    } else {
      forall k: nat | k < |log|
        ensures log[k].byteCount > 0 ==> IsSelected(log, [], Index(log[k].address))
      {
        assert log[k].byteCount > 0 ==> LogCovers(log[k], Index(log[k].address));
      }
      if again == Some([]) {
        NothingCovered();
      } else if forall k: nat | k < |log| :: log[k].byteCount == 0 && Index(log[k].address) <= size {
        NothingCovered();
        NormalFormIsUnique(again.value, []);
      }
    }
  }

  /**
   * After any run from a fresh log, even one that ends in a throw, a dump without a request succeeds, and it names
   * exactly the bytes that the run has stored into: every byte of memory that has changed is among them.
   */
  lemma DefaultDumpIsExact(predict: Prediction, start: Machine, n: nat, result: Option<seq<MemoryDumpRange>>)
    requires start.cpu.writes == []
    requires var cpu := Run(predict, start, n).machine.cpu;
             Normalizes(|cpu.memory|, cpu.writes, [], result)
    ensures result.Some? && |Run(predict, start, n).machine.cpu.memory| == |start.cpu.memory|
    ensures forall i: nat :: Covered(result.value, i) <==>
              exists j: nat :: j < |Run(predict, start, n).machine.cpu.writes|
                               && LogCovers(Run(predict, start, n).machine.cpu.writes[j], i)
    ensures forall i: nat | i < |start.cpu.memory| ::
              Run(predict, start, n).machine.cpu.memory[i] != start.cpu.memory[i] ==> Covered(result.value, i)
  {
    hide Run, Index, IsNormal, Covered;
    RunLogFits(predict, start, n);
    forall i: nat | i < |start.cpu.memory| && Run(predict, start, n).machine.cpu.memory[i] != start.cpu.memory[i]
      ensures Covered(result.value, i)
    {
      RunLogsItsWrites(predict, start, n, i);
    }
  }
}
