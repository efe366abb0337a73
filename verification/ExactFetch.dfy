/**
 * Exactly when self-modifying code is fetched right. For any predictor whose wrong predictions are a given set of
 * entries, the latches follow the trace at every moment of the run if and only if the trace is fetched fresh for that
 * set; for the simulator's own predictor, in each of its modes and from any table, the trace determines the set.
 */
module ExactFetch {
  import opened Words
  import opened Memory
  import opened PipelineRegisters
  import opened Instruction
  import opened CpuState
  import opened Hazard
  import opened Stages
  import opened Isa
  import opened LatchInvariants
  import opened Refinement
  import opened Accounting
  import opened MachineLaws
  import opened FetchWindow
  import opened Runs
  import opened Progress

  /** The latches of the machine follow the trace at the cuts of the run. */
  ghost predicate FollowsAt(predict: Prediction, a: Arch, start: Machine, n: nat) {
    Run(predict, start, n).Ticked? ==>
      FollowsTrace(a, PositionsAt(predict, a, start, n), Run(predict, start, n).machine.latches)
  }

  /** So far the run has followed the trace, and mispredicted behind these entries. */
  ghost predicate OnTraceAt(predict: Prediction, a: Arch, redirects: nat -> bool, start: Machine, n: nat) {
    && ReachedAt(predict, a, start, n)
    && (Run(predict, start, n).Ticked? ==>
          PathInv(a, redirects, PositionsAt(predict, a, start, n), Run(predict, start, n).machine.latches))
  }

  /** As long as it follows the trace, a run mispredicts just these entries. */
  ghost predicate RedirectsBehind(predict: Prediction, a: Arch, redirects: nat -> bool, start: Machine) {
    forall n: nat |
      OnTraceAt(predict, a, redirects, start, n) && FreshAt(predict, a, start, n) && TicksAfter(predict, start, n) ::
      PredictsAs(a, redirects, PositionsAt(predict, a, start, n), Run(predict, start, n).machine, predict)
  }

  lemma FetchedInstruction(cpu: CpuState, predict: Prediction)
    ensures FetchedAt(cpu, predict).instruction == FetchFrom(cpu.memory, cpu.pc)
  {
    hide DecodeInstruction, ReadU32, FetchFrom;
    if InBounds(|cpu.memory|, cpu.pc, 4) {
      FetchReadsTheWord(cpu.memory, cpu.pc);
    } else {
      FetchOutside(cpu.memory, cpu.pc);
    }
  }

  lemma FetchOutside(memory: seq<Byte>, pc: Word)
    requires !InBounds(|memory|, pc, 4)
    ensures FetchFrom(memory, pc) == ZERO
  {
  }

  /** On the path, IF/ID holds the word of the entry it covers. */
  lemma FollowingMeansWord(a: Arch, p: Positions, l: Latches)
    requires FollowsTrace(a, p, l) && Live(a, p.id) && !Mispredicted(a, p, l.idEx) && p.next == p.id + 1
    ensures l.ifId.instruction == FetchWord(After(a, p.id))
  {
    hide Live, EventAt, After, FetchWord, Mispredicted, Covers;
  }

  /** A cycle after which the latches still follow the trace has fetched the word that the trace has. */
  lemma FollowedMeansFresh(a: Arch, p: Positions, m: Machine, predict: Prediction)
    requires Inv(a, p, m) && !AccessThrows(|m.cpu.memory|, m.latches.exMem) && !m.cpu.halted
    requires FollowsTrace(a, NextPositions(a, p, m), Cycle(predict, m).machine.latches)
    ensures FetchFresh(a, p, m)
  {
    hide Inv, Live, EventAt, After, Mispredicted, AccessThrows, EntryToFetch, Cycle, FetchedAt, FollowsTrace,
         NextPositions, FetchFrom;
    if EntryToFetch(a, p, m).Some? {
      var n := EntryToFetch(a, p, m).value;
      FetchedIsLive(a, p, m);
      if EventAt(After(a, n)).Stuck? {
        UnreachableStands(a, n, p.ex);
      } else {
        var cpu := FetchHappens(a, p, m, predict);
        FetchedInstruction(cpu, predict);
        FollowingMeansWord(a, NextPositions(a, p, m), Cycle(predict, m).machine.latches);
      }
    }
  }

  lemma FollowedIsFreshAt(predict: Prediction, a: Arch, start: Machine, n: nat)
    requires ReachedAt(predict, a, start, n) && FollowsAt(predict, a, start, n + 1)
    ensures FreshAt(predict, a, start, n)
  {
    hide Inv, StatsInv, PathInv, FaultsPrecisely, Cycle, NextPositions, FetchFresh, FollowsTrace, BubblesFollow;
    if TicksAfter(predict, start, n) {
      var m := Run(predict, start, n).machine;
      TickMeansNoThrow(predict, m);
      FollowedMeansFresh(a, PositionsAt(predict, a, start, n), m, predict);
    }
  }

  lemma FreshOnTrace(predict: Prediction, a: Arch, redirects: nat -> bool, start: Machine, n: nat)
    requires OnTraceAt(predict, a, redirects, start, n) && FetchesAreFresh(a, redirects)
    ensures FreshAt(predict, a, start, n)
  {
    hide Inv, StatsInv, PathInv, FaultsPrecisely, Cycle, FetchFresh, FetchesAreFresh, BubblesFollow;
    if TicksAfter(predict, start, n) {
      FreshWhenTraceIs(a, redirects, PositionsAt(predict, a, start, n), Run(predict, start, n).machine);
    }
  }

  lemma StaysOnTrace(predict: Prediction, a: Arch, redirects: nat -> bool, start: Machine, n: nat)
    requires RedirectsBehind(predict, a, redirects, start)
    requires OnTraceAt(predict, a, redirects, start, n) && FreshAt(predict, a, start, n)
    ensures OnTraceAt(predict, a, redirects, start, n + 1)
  {
    Advances(predict, a, start, n);
    hide Inv, StatsInv, PathInv, FaultsPrecisely, Cycle, FreshAt, NextPositions, BubblesFollow, PredictsAs;
    if TicksAfter(predict, start, n) {
      var p, m := PositionsAt(predict, a, start, n), Run(predict, start, n).machine;
      TickMeansNoThrow(predict, m);
      PathPreserved(a, redirects, p, m, predict);
    }
  }

  lemma OnTraceAtStart(predict: Prediction, a: Arch, redirects: nat -> bool, start: Machine)
    requires Starts(start, a)
    ensures OnTraceAt(predict, a, redirects, start, 0)
  {
    ReachedAtStart(predict, a, start);
    StartPath(a, redirects, start);
    hide Starts, ReachedAt, PathInv;
  }

  /** A run whose latches follow the trace, or whose trace is fresh for the entries it redirects behind, is on it. */
  lemma {:induction false} StaysOn(predict: Prediction, a: Arch, redirects: nat -> bool, start: Machine, n: nat)
    requires Starts(start, a) && RedirectsBehind(predict, a, redirects, start)
    requires FetchesAreFresh(a, redirects) || forall k: nat :: FollowsAt(predict, a, start, k)
    ensures OnTraceAt(predict, a, redirects, start, n) && FreshAt(predict, a, start, n)
  {
    hide Starts, ReachedAt, FreshAt, FollowsAt, FetchesAreFresh, RedirectsBehind, PathInv;
    if n == 0 {
      OnTraceAtStart(predict, a, redirects, start);
    } else {
      StaysOn(predict, a, redirects, start, n - 1);
      StaysOnTrace(predict, a, redirects, start, n - 1);
    }
    if FetchesAreFresh(a, redirects) {
      FreshOnTrace(predict, a, redirects, start, n);
    } else {
      FollowedIsFreshAt(predict, a, start, n);
    }
  }

  /** Fetch passes an entry only by fetching it. */
  lemma PassedByFetch(a: Arch, p: Positions, m: Machine)
    requires Inv(a, p, m) && !AccessThrows(|m.cpu.memory|, m.latches.exMem) && !m.cpu.halted
    requires NextPositions(a, p, m).next > p.next
    ensures EntryToFetch(a, p, m) == Some(p.next)
  {
    hide Inv, Live, EventAt, After, Mispredicted, IsLoadUse, AccessThrows, Good, MispredictedInIfId;
    CutsAreConsecutive(a, p, m);
    ExecutingIsGood(a, p, m);
    if Good(a, p.id) && Mispredicted(a, p, m.latches.idEx) {
      MispredictedIsNoLoad(a, p, m);
    }
  }

  lemma NextGrowsByOne(a: Arch, p: Positions, m: Machine)
    requires Inv(a, p, m) && !AccessThrows(|m.cpu.memory|, m.latches.exMem)
    ensures NextPositions(a, p, m).next <= p.next + 1
  {
    hide Inv, Live, EventAt, After, Mispredicted, IsLoadUse, AccessThrows, Good, MispredictedInIfId;
    CutsAreConsecutive(a, p, m);
  }

  /** Every entry that fetch has passed was fetched from the memory that the trace says, and right. */
  lemma {:induction false} PassedIsFresh(predict: Prediction, a: Arch, redirects: nat -> bool, start: Machine, j: nat,
                                         n: nat)
    requires Starts(start, a) && RedirectsBehind(predict, a, redirects, start)
    requires forall k: nat :: FollowsAt(predict, a, start, k)
    requires Fetchable(a, j) && PositionsAt(predict, a, start, n).next > j
    ensures WordStands(a, j, FetchCut(a, redirects, j))
  {
    hide Starts, FollowsAt, Inv, StatsInv, PathInv, FaultsPrecisely, Cycle, NextPositions, WordStands, FetchCut,
         EntryToFetch, Live, EventAt, After, Run, RedirectsBehind, FetchesAreFresh, BubblesFollow;
    if n > 0 {
      var p, m := PositionsAt(predict, a, start, n - 1), Run(predict, start, n - 1).machine;
      if p.next > j {
        PassedIsFresh(predict, a, redirects, start, j, n - 1);
      } else if TicksAfter(predict, start, n - 1) {
        StaysOn(predict, a, redirects, start, n - 1);
        TickMeansNoThrow(predict, m);
        NextGrowsByOne(a, p, m);
        PassedByFetch(a, p, m);
        FetchedFromCut(a, redirects, p, m);
      }
    }
  }

  lemma StandsWhenFollowed(predict: Prediction, a: Arch, redirects: nat -> bool, start: Machine, j: nat)
    requires Starts(start, a) && RedirectsBehind(predict, a, redirects, start)
    requires (forall n: nat :: FollowsAt(predict, a, start, n)) && Live(a, j)
    ensures WordStands(a, j, FetchCut(a, redirects, j))
  {
    hide Starts, FollowsAt, WordStands, FetchCut, Live, EventAt, After, Run, PositionsAt, ReachedAt, FreshAt,
         RedirectsBehind, PathInv, FetchesAreFresh;
    if EventAt(After(a, j)).Stuck? {
      UnreachableStands(a, j, FetchCut(a, redirects, j));
    } else {
      StaysOn(predict, a, redirects, start, 2 * j + 1);
      FetchedByThen(predict, a, start, j);
      PassedIsFresh(predict, a, redirects, start, j, 2 * j + 1);
    }
  }

  lemma FollowsOnTrace(predict: Prediction, a: Arch, redirects: nat -> bool, start: Machine, n: nat)
    requires OnTraceAt(predict, a, redirects, start, n)
    ensures FollowsAt(predict, a, start, n)
  {
    hide StatsInv, Inv, Run, PositionsAt, FollowsTrace, PathInv, BubblesFollow, FaultsPrecisely;
    if Run(predict, start, n).Ticked? {
      FollowsTraceAtCuts(a, PositionsAt(predict, a, start, n), Run(predict, start, n).machine);
    }
  }

  /** The exact condition for a run that redirects behind given entries. */
  lemma FollowsIffFreshBehind(predict: Prediction, a: Arch, redirects: nat -> bool, start: Machine)
    requires Starts(start, a) && RedirectsBehind(predict, a, redirects, start)
    ensures (forall n: nat :: FollowsAt(predict, a, start, n)) <==> FetchesAreFresh(a, redirects)
  {
    hide Starts, FollowsAt, WordStands, FetchCut, Live, RedirectsBehind, OnTraceAt, FreshAt;
    if forall n: nat :: FollowsAt(predict, a, start, n) {
      forall j: nat | Live(a, j)
        ensures WordStands(a, j, FetchCut(a, redirects, j))
      {
        StandsWhenFollowed(predict, a, redirects, start, j);
      }
    }
    if FetchesAreFresh(a, redirects) {
      forall n: nat
        ensures FollowsAt(predict, a, start, n)
      {
        StaysOn(predict, a, redirects, start, n);
        FollowsOnTrace(predict, a, redirects, start, n);
      }
    }
  }

  // The simulator's own predictor

  lemma ConfiguredRedirects(a: Arch, start: Machine)
    ensures RedirectsBehind(CONFIGURED, a, RedirectsIn(a, start.cpu.mode, start.cpu.counters), start)
  {
    var mode, table := start.cpu.mode, start.cpu.counters;
    forall n: nat |
      && OnTraceAt(CONFIGURED, a, RedirectsIn(a, mode, table), start, n)
      && FreshAt(CONFIGURED, a, start, n) && TicksAfter(CONFIGURED, start, n)
      ensures PredictsAs(a, RedirectsIn(a, mode, table), PositionsAt(CONFIGURED, a, start, n),
                         Run(CONFIGURED, start, n).machine, CONFIGURED)
    {
      ConfiguredRedirectsAt(a, start, n);
    }
  }

  lemma ConfiguredRedirectsAt(a: Arch, start: Machine, n: nat)
    requires OnTraceAt(CONFIGURED, a, RedirectsIn(a, start.cpu.mode, start.cpu.counters), start, n)
    requires FreshAt(CONFIGURED, a, start, n) && TicksAfter(CONFIGURED, start, n)
    ensures PredictsAs(a, RedirectsIn(a, start.cpu.mode, start.cpu.counters), PositionsAt(CONFIGURED, a, start, n),
                       Run(CONFIGURED, start, n).machine, CONFIGURED)
  {
    hide Inv, StatsInv, PathInv, FaultsPrecisely, Cycle, NextPositions, BubblesFollow, PredictsAs, RedirectsAt;
    TickMeansNoThrow(CONFIGURED, Run(CONFIGURED, start, n).machine);
    ConfiguredPredictsOnPath(a, start.cpu.counters, start.cpu.mode, PositionsAt(CONFIGURED, a, start, n),
                             Run(CONFIGURED, start, n).machine);
  }

  /**
   * The exact condition. On the left the run: at every moment the latches hold what the trace says. On the right the
   * trace alone: each instruction stands in memory one or two entries before it is reached, one if fetch is held up.
   */
  lemma FollowsIffFresh(a: Arch, start: Machine)
    requires Starts(start, a)
    ensures (forall n: nat :: FollowsAt(CONFIGURED, a, start, n))
       <==> FetchesAreFresh(a, RedirectsIn(a, start.cpu.mode, start.cpu.counters))
  {
    ConfiguredRedirects(a, start);
    hide Starts, FollowsAt, FetchesAreFresh, RedirectsBehind;
    FollowsIffFreshBehind(CONFIGURED, a, RedirectsIn(a, start.cpu.mode, start.cpu.counters), start);
  }

  /** The condition that does not look at predictions implies the exact one, in every mode and from any table. */
  lemma NoStaleFetchMeansFresh(a: Arch, start: Machine)
    requires Starts(start, a) && NoStaleFetch(a)
    ensures FetchesAreFresh(a, RedirectsIn(a, start.cpu.mode, start.cpu.counters))
  {
    hide Starts, NoStaleFetch, FetchesAreFresh, FollowsAt;
    forall n: nat
      ensures FollowsAt(CONFIGURED, a, start, n)
    {
      FollowsWithoutStaleFetch(CONFIGURED, a, start, n);
    }
    FollowsIffFresh(a, start);
  }

  lemma FollowsWithoutStaleFetch(predict: Prediction, a: Arch, start: Machine, n: nat)
    requires Starts(start, a) && NoStaleFetch(a)
    ensures FollowsAt(predict, a, start, n)
  {
    hide Starts, NoStaleFetch, Run, PositionsAt, Refines, FollowsTrace;
    if Run(predict, start, n).Ticked? {
      LatchesFollowTrace(predict, a, start, n);
    }
  }
}
