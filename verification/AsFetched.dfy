/**
 * Self-modifying code without a hypothesis. Whatever a program stores and wherever, the pipeline with the simulator's
 * predictor refines a sequential machine: the one that executes, as entry `n`, the word standing at that entry's own
 * fetch cut. The ISA is that machine exactly for the programs that are fetched fresh.
 */
module AsFetched {
  import opened Words
  import opened Memory
  import opened BranchPredictor
  import opened Instruction
  import opened Hazard
  import opened Stages
  import opened Isa
  import opened LatchInvariants
  import opened Refinement
  import opened Accounting
  import opened FetchWindow
  import opened Runs
  import opened Timing
  import opened Faults
  import opened Mispredictions

  // Machines that execute the same words

  /** The same registers, memory, program counter and log, whatever is executed next. */
  ghost predicate Same(b: Arch, c: Arch) {
    b.regs == c.regs && b.memory == c.memory && b.pc == c.pc && b.writes == c.writes
  }

  ghost predicate Alike(b: Arch, c: Arch) {
    Same(b, c) && FetchWord(b) == FetchWord(c)
  }

  /** The first `n` entries are the same. */
  ghost predicate AgreeBelow(b: Arch, c: Arch, n: nat) {
    forall i: nat | i < n :: Alike(After(b, i), After(c, i))
  }

  lemma AlikeEvents(b: Arch, c: Arch)
    requires Alike(b, c)
    ensures Decoded(b) == Decoded(c) && EventAt(b) == EventAt(c)
  {
    hide DecodeInstruction, FetchWord, ClassOf, AccessInBounds, InBounds;
    SameAccess(b, c, Decoded(b));
  }

  lemma SameAccess(b: Arch, c: Arch, d: DecodedInstruction)
    requires Same(b, c)
    ensures AccessInBounds(b, d) <==> AccessInBounds(c, d)
  {
  }

  lemma AlikeExecuted(b: Arch, c: Arch, d: DecodedInstruction)
    requires Same(b, c) && EventOf(b, d).Retire? && EventOf(c, d).Retire?
    ensures Same(Executed(b, d), Executed(c, d))
  {
    hide Compute, Taken, Extended, FromBytes, ToBytes, Splice, Index, WriteReg, ReadReg;
  }

  lemma AlikeSteps(b: Arch, c: Arch)
    requires Alike(b, c)
    ensures Same(Step(b), Step(c))
  {
    hide Executed, Decoded, FetchWord;
    AlikeEvents(b, c);
    if EventAt(b).Retire? {
      AlikeExecuted(b, c, Decoded(b));
    }
  }

  lemma AlikeTransfers(b: Arch, c: Arch, taken: bool)
    requires Alike(b, c)
    ensures Transfers(b) == Transfers(c) && Branches(b) == Branches(c) && BranchTaken(b) == BranchTaken(c)
    ensures Step(b).pc == Step(c).pc && PathOf(b, taken) == PathOf(c, taken)
  {
    AlikeEvents(b, c);
    AlikeSteps(b, c);
    hide EventAt, Decoded, Step, Taken;
  }

  lemma AgreeAt(b: Arch, c: Arch, n: nat, i: nat)
    requires AgreeBelow(b, c, n) && i < n
    ensures Alike(After(b, i), After(c, i))
  {
    hide Alike, After;
  }

  lemma AgreeShorter(b: Arch, c: Arch, k: nat, n: nat)
    requires AgreeBelow(b, c, n) && k <= n
    ensures AgreeBelow(b, c, k)
  {
    hide Alike, After;
  }

  lemma AgreeNext(b: Arch, c: Arch, n: nat)
    requires AgreeBelow(b, c, n) && Same(b, c)
    ensures Same(After(b, n), After(c, n))
  {
    hide Alike, Step;
    if n > 0 {
      assert Alike(After(b, n - 1), After(c, n - 1));
      AlikeSteps(After(b, n - 1), After(c, n - 1));
    }
  }

  lemma TrainAlike(table: CounterTable, mode: BranchPredictorType, b: Arch, c: Arch)
    requires Alike(b, c)
    ensures TrainedWith(table, mode, b) == TrainedWith(table, mode, c)
  {
    hide Alike, Branches, BranchTaken, Trained;
    SamePc(b, c);
    AlikeTransfers(b, c, true);
  }

  lemma {:induction false} AgreeOnTable(b: Arch, c: Arch, mode: BranchPredictorType, table: CounterTable, n: nat)
    requires AgreeBelow(b, c, n)
    ensures TrainedBy(b, mode, table, n) == TrainedBy(c, mode, table, n)
  {
    hide Alike, AgreeBelow, After, TrainedWith;
    if n > 0 {
      AgreeAt(b, c, n, n - 1);
      AgreeShorter(b, c, n - 1, n);
      AgreeOnTable(b, c, mode, table, n - 1);
      TrainAlike(TrainedBy(b, mode, table, n - 1), mode, After(b, n - 1), After(c, n - 1));
    }
  }

  lemma SamePc(b: Arch, c: Arch)
    requires Alike(b, c)
    ensures b.pc == c.pc
  {
  }

  lemma {:induction false} AgreeOnRedirects(b: Arch, c: Arch, mode: BranchPredictorType, table: CounterTable, n: nat,
                                            i: nat)
    requires AgreeBelow(b, c, n) && i < n
    ensures RedirectsIn(b, mode, table)(i) == RedirectsIn(c, mode, table)(i)
    decreases i
  {
    hide Alike, AgreeBelow, After, Transfers, Step, PathOf, Predict, TrainedBy;
    AgreeAt(b, c, n, i);
    SamePc(After(b, i), After(c, i));
    AlikeTransfers(After(b, i), After(c, i), true);
    AlikeTransfers(After(b, i), After(c, i), false);
    AgreeShorter(b, c, i, n);
    AgreeOnTable(b, c, mode, table, i);
    if i > 0 {
      AgreeShorter(b, c, i - 1, n);
      AgreeOnTable(b, c, mode, table, i - 1);
      AgreeOnRedirects(b, c, mode, table, n, i - 1);
    }
  }

  lemma AgreeOnLoadUse(b: Arch, c: Arch, n: nat, i: nat)
    requires AgreeBelow(b, c, n) && i < n
    ensures LoadUsesIn(b)(i) == LoadUsesIn(c)(i)
  {
    hide Alike, After, EventAt, Decoded, DependsOn, SourcesOf;
    AlikeEvents(After(b, i), After(c, i));
    if i > 0 {
      AlikeEvents(After(b, i - 1), After(c, i - 1));
    }
  }

  /** Where an entry is fetched is decided by the entries before it. */
  lemma AgreeOnCut(b: Arch, c: Arch, mode: BranchPredictorType, table: CounterTable, n: nat)
    requires AgreeBelow(b, c, n)
    ensures FetchCut(b, RedirectsIn(b, mode, table), n) == FetchCut(c, RedirectsIn(c, mode, table), n) <= n
  {
    hide AgreeBelow, RedirectsIn, LoadUsesIn;
    if n > 0 {
      AgreeOnRedirects(b, c, mode, table, n, n - 1);
      AgreeOnLoadUse(b, c, n, n - 1);
    }
    if n > 1 {
      AgreeOnRedirects(b, c, mode, table, n, n - 2);
    }
  }

  /** The word that stands at the fetch cut of entry `n`. */
  ghost function WordFetched(b: Arch, mode: BranchPredictorType, table: CounterTable, n: nat): Word {
    FetchFrom(After(b, FetchCut(b, RedirectsIn(b, mode, table), n)).memory, After(b, n).pc)
  }

  lemma AgreeOnFetch(b: Arch, c: Arch, mode: BranchPredictorType, table: CounterTable, n: nat)
    requires AgreeBelow(b, c, n) && Same(b, c)
    ensures WordFetched(b, mode, table, n) == WordFetched(c, mode, table, n)
  {
    AgreeOnCut(b, c, mode, table, n);
    hide Alike, After, FetchCut, RedirectsIn, FetchFrom;
    AgreeNext(b, c, n);
    AgreeNext(b, c, FetchCut(b, RedirectsIn(b, mode, table), n));
  }

  // Executing a record of words

  /** The machine at `a`, about to execute these words. */
  ghost function Executing(a: Arch, words: nat -> Word): Arch {
    a.(code := Recorded(words, 0))
  }

  lemma {:induction false} RecordIsKept(a: Arch, words: nat -> Word, k: nat)
    ensures var b := After(Executing(a, words), k);
            b.code.Recorded? && b.code.words == words && b.code.entry <= k
    ensures Live(Executing(a, words), k) ==> After(Executing(a, words), k).code.entry == k
  {
    hide EventAt, Decoded, NextRegs, NextMemory, NextPc, NextWrites;
    var b := Executing(a, words);
    if k > 0 {
      RecordIsKept(a, words, k - 1);
      if Live(b, k) {
        LivePrefix(b, k - 1, k);
        LiveAt(b, k, k - 1);
      }
    }
  }

  function EntryOf(b: Arch): nat {
    if b.code.Recorded? then b.code.entry else 0
  }

  /** One step of machines that execute records and are at the same entry. */
  lemma StepsCountAlike(b: Arch, c: Arch)
    requires Alike(b, c) && b.code.Recorded? && c.code.Recorded? && b.code.entry == c.code.entry
    ensures Step(b).code.Recorded? && Step(c).code.Recorded? && Step(b).code.entry == Step(c).code.entry
  {
    AlikeEvents(b, c);
    hide EventAt, Decoded, NextRegs, NextMemory, NextPc, NextWrites;
  }

  lemma SameWord(b: Arch, c: Arch)
    requires Same(b, c) && b.code.Recorded? && c.code.Recorded?
    requires b.code.words(b.code.entry) == c.code.words(c.code.entry)
    ensures Alike(b, c)
  {
    hide FetchFrom, InBounds;
  }

  /** Records that agree on the first `n` words lead to the same first `n` entries. */
  lemma {:induction false} RecordsAgree(a: Arch, words: nat -> Word, others: nat -> Word, n: nat)
    requires forall i: nat | i < n :: words(i) == others(i)
    ensures AgreeBelow(Executing(a, words), Executing(a, others), n)
    ensures EntryOf(After(Executing(a, words), n)) == EntryOf(After(Executing(a, others), n))
  {
    hide Alike, Same, Step, FetchWord;
    var b, c := Executing(a, words), Executing(a, others);
    if n > 0 {
      RecordsAgree(a, words, others, n - 1);
      StartSame(a, words, others);
      AgreeNext(b, c, n - 1);
      RecordIsKept(a, words, n - 1);
      RecordIsKept(a, others, n - 1);
      SameWord(After(b, n - 1), After(c, n - 1));
      StepsCountAlike(After(b, n - 1), After(c, n - 1));
    }
  }

  lemma StartSame(a: Arch, words: nat -> Word, others: nat -> Word)
    ensures Same(Executing(a, words), Executing(a, others))
  {
  }

  // The machine that executes what is fetched

  function Padded(words: seq<Word>): nat -> Word {
    (i: nat) => if i < |words| then words[i] else ZERO
  }

  /** The first `n` words, each standing at its fetch cut for the machine that executes the words before it. */
  ghost function Fetched(a: Arch, mode: BranchPredictorType, table: CounterTable, n: nat): (words: seq<Word>)
    ensures |words| == n
  {
    if n == 0 then []
    else
      var before := Fetched(a, mode, table, n - 1);
      before + [WordFetched(Executing(a, Padded(before)), mode, table, n - 1)]
  }

  ghost function FetchedWords(a: Arch, mode: BranchPredictorType, table: CounterTable): nat -> Word {
    (i: nat) => Fetched(a, mode, table, i + 1)[i]
  }

  ghost function FetchingMachine(a: Arch, mode: BranchPredictorType, table: CounterTable): Arch {
    Executing(a, FetchedWords(a, mode, table))
  }

  lemma {:induction false} FetchedGrows(a: Arch, mode: BranchPredictorType, table: CounterTable, i: nat, n: nat)
    requires i < n
    ensures Fetched(a, mode, table, n)[i] == FetchedWords(a, mode, table)(i)
  {
    hide WordFetched;
    if i + 1 < n {
      FetchedGrows(a, mode, table, i, n - 1);
    }
  }

  lemma NextFetched(a: Arch, mode: BranchPredictorType, table: CounterTable, n: nat)
    ensures FetchedWords(a, mode, table)(n) ==
            WordFetched(Executing(a, Padded(Fetched(a, mode, table, n))), mode, table, n)
  {
    hide WordFetched, Padded;
  }

  lemma PrefixAgrees(a: Arch, mode: BranchPredictorType, table: CounterTable, n: nat)
    ensures AgreeBelow(Executing(a, Padded(Fetched(a, mode, table, n))), FetchingMachine(a, mode, table), n)
  {
    hide AgreeBelow, Fetched, FetchedWords, Executing;
    forall i: nat | i < n
      ensures Padded(Fetched(a, mode, table, n))(i) == FetchedWords(a, mode, table)(i)
    {
      FetchedGrows(a, mode, table, i, n);
    }
    RecordsAgree(a, Padded(Fetched(a, mode, table, n)), FetchedWords(a, mode, table), n);
  }

  lemma RecordedWord(a: Arch, words: nat -> Word, n: nat)
    requires Live(Executing(a, words), n) && !EventAt(After(Executing(a, words), n)).Stuck?
    ensures FetchWord(After(Executing(a, words), n)) == words(n)
  {
    RecordIsKept(a, words, n);
    hide After, Executing, Live, DecodeInstruction, FetchFrom;
  }

  /** What entry `n` executes is the word that stands at its own fetch cut. */
  lemma ExecutesWhatIsFetched(a: Arch, mode: BranchPredictorType, table: CounterTable, n: nat)
    requires Live(FetchingMachine(a, mode, table), n)
    requires !EventAt(After(FetchingMachine(a, mode, table), n)).Stuck?
    ensures FetchWord(After(FetchingMachine(a, mode, table), n)) ==
            WordFetched(FetchingMachine(a, mode, table), mode, table, n)
  {
    hide AgreeBelow, Fetched, FetchedWords, Executing, Padded, Live, EventAt, After, FetchWord, WordFetched, Same;
    RecordedWord(a, FetchedWords(a, mode, table), n);
    NextFetched(a, mode, table, n);
    PrefixAgrees(a, mode, table, n);
    var before := Padded(Fetched(a, mode, table, n));
    StartSame(a, before, FetchedWords(a, mode, table));
    AgreeOnFetch(Executing(a, before), FetchingMachine(a, mode, table), mode, table, n);
  }

  lemma FetchingIsFresh(a: Arch, mode: BranchPredictorType, table: CounterTable)
    ensures var d := FetchingMachine(a, mode, table); FetchesAreFresh(d, RedirectsIn(d, mode, table))
  {
    hide FetchingMachine, Live, EventAt, After, FetchWord, FetchCut, RedirectsIn, FetchFrom;
    var d := FetchingMachine(a, mode, table);
    forall n: nat | Live(d, n)
      ensures WordStands(d, n, FetchCut(d, RedirectsIn(d, mode, table), n))
    {
      if EventAt(After(d, n)).Stuck? {
        UnreachableStands(d, n, FetchCut(d, RedirectsIn(d, mode, table), n));
      } else {
        ExecutesWhatIsFetched(a, mode, table, n);
      }
    }
  }

  // The refinement, for every program

  ghost function Sequential(a: Arch, start: Machine): Arch {
    FetchingMachine(a, start.cpu.mode, start.cpu.counters)
  }

  lemma FetchingIsSafe(a: Arch, start: Machine)
    requires Starts(start, a)
    ensures Starts(start, Sequential(a, start)) && FetchesSafely(CONFIGURED, Sequential(a, start), start)
  {
    FetchingIsFresh(a, start.cpu.mode, start.cpu.counters);
    hide FetchedWords, FetchesAreFresh, NoStaleFetch, RedirectsIn;
  }

  /**
   * Every run of every program, self-modifying or not: at every moment registers, memory, write log, counts and latches
   * are those of the machine that executes what is fetched, and a throw is precise for it.
   */
  lemma EveryRunRefines(a: Arch, start: Machine, n: nat)
    requires Starts(start, a)
    ensures var d, result := Sequential(a, start), Run(CONFIGURED, start, n);
            var p := PositionsAt(CONFIGURED, d, start, n);
            && (result.Ticked? ==>
                  && Consecutive(p) && Refines(d, result.machine, p.wb, p.mem)
                  && FollowsTrace(d, p, result.machine.latches))
            && (result.Thrown? ==> FaultsPrecisely(d, start.cpu.counters, p.mem, result.machine.cpu))
  {
    hide Starts, Sequential, FetchesSafely, Run, PositionsAt, Refines, FollowsTrace, FaultsPrecisely;
    var d, result := Sequential(a, start), Run(CONFIGURED, start, n);
    FetchingIsSafe(a, start);
    if result.Ticked? {
      RunRefinesIsa(CONFIGURED, d, start, n);
      LatchesFollowTrace(CONFIGURED, d, start, n);
    } else {
      FaultsArePrecise(CONFIGURED, d, start, n);
    }
  }

  /** Every program halts, and throws, exactly when that machine does. */
  lemma EveryRunEnds(a: Arch, start: Machine)
    requires Starts(start, a)
    ensures var d := Sequential(a, start);
            && ((exists n: nat :: Run(CONFIGURED, start, n).Ticked? && Run(CONFIGURED, start, n).machine.cpu.halted)
                <==> exists steps: nat :: HaltsAfter(d, steps))
            && ((exists n: nat :: Run(CONFIGURED, start, n).Thrown?) <==> exists k: nat :: FaultsAt(d, k))
  {
    hide Starts, Sequential, FetchesSafely, Run, HaltsAfter, FaultsAt;
    FetchingIsSafe(a, start);
    HaltsIffIsaHalts(CONFIGURED, Sequential(a, start), start);
    ThrowsIffIsaFaults(CONFIGURED, Sequential(a, start), start);
  }

  /** A program that halts does so in that machine's state, after exactly as many cycles as its trace accounts for. */
  lemma EveryHaltIsExact(a: Arch, start: Machine, steps: nat)
    requires Starts(start, a) && HaltsAfter(Sequential(a, start), steps)
    ensures var d, result := Sequential(a, start), Run(CONFIGURED, start, 2 * steps + 3);
            && result.Ticked? && Finished(d, steps, result.machine)
            && result.machine.cpu.stats.clockCycles ==
               steps + 4 + Count(LoadUsesIn(d), steps) + Count(JumpsAwayIn(d), steps)
               + Count(MispredictsIn(d, start.cpu.mode, start.cpu.counters), steps)
  {
    hide Starts, Sequential, FetchesSafely, Run, HaltsAfter, Finished, TakesExactly, Count;
    FetchingIsSafe(a, start);
    HaltsInTime(CONFIGURED, Sequential(a, start), start, steps);
    CyclesOfProgram(Sequential(a, start), start, steps);
  }

  // When it is the ISA

  lemma FreshWord(b: Arch, mode: BranchPredictorType, table: CounterTable, n: nat)
    requires Live(b, n)
    ensures WordStands(b, n, FetchCut(b, RedirectsIn(b, mode, table), n))
       <==> WordFetched(b, mode, table, n) == FetchWord(After(b, n))
  {
    hide Live, After, FetchWord, FetchCut, RedirectsIn, FetchFrom;
  }

  /** Two machines that are fetched fresh and start alike go through the same trace, wherever their words come from. */
  lemma {:induction false} FreshAgree(b: Arch, c: Arch, mode: BranchPredictorType, table: CounterTable, n: nat)
    requires Same(b, c) && Live(b, n)
    requires FetchesAreFresh(b, RedirectsIn(b, mode, table)) && FetchesAreFresh(c, RedirectsIn(c, mode, table))
    ensures Live(c, n) && AgreeBelow(b, c, n + 1)
  {
    hide Same, Live, After, FetchWord, FetchCut, RedirectsIn, WordStands, WordFetched, EventAt;
    if n > 0 {
      LivePrefix(b, n - 1, n);
      FreshAgree(b, c, mode, table, n - 1);
      AgreeAt(b, c, n, n - 1);
      AlikeEvents(After(b, n - 1), After(c, n - 1));
      LiveAt(b, n, n - 1);
      LiveExtends(c, n - 1);
    }
    NothingLive(c);
    FreshWord(b, mode, table, n);
    FreshWord(c, mode, table, n);
    AgreeOnFetch(b, c, mode, table, n);
    AgreeNext(b, c, n);
  }

  lemma NothingLive(c: Arch)
    ensures Live(c, 0)
  {
  }

  /** The machines go through the same trace. */
  ghost predicate SameTrace(b: Arch, c: Arch) {
    forall n: nat | Live(b, n) :: Live(c, n) && Alike(After(b, n), After(c, n))
  }

  lemma SameTraceBelow(b: Arch, c: Arch, n: nat)
    requires SameTrace(b, c) && Live(b, n)
    ensures AgreeBelow(b, c, n)
  {
    hide Live, After, Alike;
    forall i: nat | i < n
      ensures Alike(After(b, i), After(c, i))
    {
      LivePrefix(b, i, n);
    }
  }

  /** The machine that executes what is fetched has the ISA's trace exactly if that is fetched fresh. */
  lemma IsaIffFresh(a: Arch, mode: BranchPredictorType, table: CounterTable)
    ensures SameTrace(a, FetchingMachine(a, mode, table)) <==> FetchesAreFresh(a, RedirectsIn(a, mode, table))
  {
    var d := FetchingMachine(a, mode, table);
    assert Same(a, d);
    hide FetchingMachine, Same, Live, After, Alike, WordStands, FetchCut, RedirectsIn;
    FetchingIsFresh(a, mode, table);
    if FetchesAreFresh(a, RedirectsIn(a, mode, table)) {
      forall n: nat | Live(a, n)
        ensures Live(d, n) && Alike(After(a, n), After(d, n))
      {
        FreshAgree(a, d, mode, table, n);
        AgreeAt(a, d, n + 1, n);
      }
    }
    if SameTrace(a, d) {
      forall n: nat | Live(a, n)
        ensures WordStands(a, n, FetchCut(a, RedirectsIn(a, mode, table), n))
      {
        SameTraceMeansFresh(a, d, mode, table, n);
      }
    }
  }

  lemma SameTraceMeansFresh(a: Arch, d: Arch, mode: BranchPredictorType, table: CounterTable, n: nat)
    requires SameTrace(a, d) && Same(a, d) && Live(a, n)
    requires FetchesAreFresh(d, RedirectsIn(d, mode, table))
    ensures WordStands(a, n, FetchCut(a, RedirectsIn(a, mode, table), n))
  {
    hide Same, Live, After, FetchWord, FetchCut, RedirectsIn, WordStands, WordFetched;
    SameTraceBelow(a, d, n);
    AgreeOnFetch(a, d, mode, table, n);
    FreshWord(a, mode, table, n);
    FreshWord(d, mode, table, n);
  }
}
