/**
 * That the condition for every predictor is exact too: two of them are enough to need it, one that is always right and
 * one that is always wrong. Both exist, for a prediction may depend on the clock, and the clock tells which entry of
 * the trace is being fetched.
 */
module EveryPredictor {
  import opened Words
  import opened Memory
  import opened PipelineRegisters
  import opened Instruction
  import opened CpuState
  import opened Stages
  import opened Isa
  import opened LatchInvariants
  import opened Refinement
  import opened Accounting
  import opened MachineLaws
  import opened FetchWindow
  import opened Runs
  import opened Timing
  import opened ExactFetch

  /** Some predictor may redirect behind just these entries: behind every jump away, and only where one can be wrong. */
  ghost predicate CanRedirect(a: Arch, redirects: nat -> bool) {
    forall i: nat :: (JumpsAwayIn(a)(i) ==> redirects(i)) && (redirects(i) ==> MayRedirectIn(a)(i))
  }

  // A single answer

  /** What to predict of the instruction at `b` for EX to redirect behind it, or not to. */
  predicate Answer(b: Arch, redirect: bool) {
    Step(b).pc == PathOf(b, !redirect)
  }

  lemma BranchPaths(b: Arch)
    requires Branches(b)
    ensures Step(b).pc == PathOf(b, true) || Step(b).pc == PathOf(b, false)
  {
    hide DecodeInstruction, FetchWord, AccessInBounds, InBounds, NextRegs, NextMemory, NextWrites, Taken, AluOpOf,
         ConditionOf, AccessWidthOf, Plus, PlusFour;
    DecodedIsWellControlled(b);
  }

  lemma AnswerIsRight(b: Arch, redirect: bool)
    requires Branches(b) && (redirect ==> MayRedirect(b))
    ensures Step(b).pc != PathOf(b, Answer(b, redirect)) <==> redirect
  {
    hide EventAt, Decoded, Step, PathOf;
    BranchPaths(b);
  }

  lemma StraightPath(b: Arch, taken: bool)
    requires Transfers(b) && !Branches(b)
    ensures Step(b).pc != PathOf(b, taken) <==> JumpsAway(b)
    ensures MayRedirect(b) <==> JumpsAway(b)
  {
    hide EventAt, DecodeInstruction, FetchWord, Step, Plus, PlusFour;
  }

  // A predictor that goes by the clock

  ghost function Scripted(script: seq<bool>): Prediction {
    (cpu: CpuState, pc: Word) => cpu.stats.clockCycles < |script| && script[cpu.stats.clockCycles]
  }

  /** What to answer in the cycle after `n` cycles of this run. */
  ghost predicate AnswerAt(predict: Prediction, a: Arch, redirects: nat -> bool, start: Machine, n: nat) {
    var entry := EntryToFetch(a, PositionsAt(predict, a, start, n), Run(predict, start, n).machine);
    entry.Some? && Answer(After(a, entry.value), redirects(entry.value))
  }

  /** The answers of the first `n` cycles, each given in view of the run that the earlier ones lead to. */
  ghost function Script(a: Arch, redirects: nat -> bool, start: Machine, n: nat): (script: seq<bool>)
    ensures |script| == n
  {
    if n == 0 then []
    else
      var before := Script(a, redirects, start, n - 1);
      before + [AnswerAt(Scripted(before), a, redirects, start, n - 1)]
  }

  /** The predictor that redirects behind these entries. */
  ghost function Contrived(a: Arch, redirects: nat -> bool, start: Machine): Prediction {
    (cpu: CpuState, pc: Word) => Script(a, redirects, start, cpu.stats.clockCycles + 1)[cpu.stats.clockCycles]
  }

  lemma {:induction false} ScriptGrows(a: Arch, redirects: nat -> bool, start: Machine, i: nat, n: nat)
    requires i < n
    ensures Script(a, redirects, start, n)[i] == Script(a, redirects, start, i + 1)[i]
  {
    hide AnswerAt;
    if i + 1 < n {
      ScriptGrows(a, redirects, start, i, n - 1);
    }
  }

  /** Two predictors give the same answers before the clock has come to `n`. */
  ghost predicate AgreeBefore(predict: Prediction, other: Prediction, n: nat) {
    forall cpu: CpuState, pc: Word | cpu.stats.clockCycles < n :: predict(cpu, pc) == other(cpu, pc)
  }

  lemma FollowsScript(a: Arch, redirects: nat -> bool, start: Machine, n: nat)
    ensures AgreeBefore(Contrived(a, redirects, start), Scripted(Script(a, redirects, start, n)), n)
  {
    hide Script;
    forall cpu: CpuState, pc: Word | cpu.stats.clockCycles < n
      ensures Contrived(a, redirects, start)(cpu, pc) == Scripted(Script(a, redirects, start, n))(cpu, pc)
    {
      ScriptGrows(a, redirects, start, cpu.stats.clockCycles, n);
    }
  }

  lemma SameFetch(predict: Prediction, other: Prediction, cpu: CpuState)
    requires predict(cpu, cpu.pc) == other(cpu, cpu.pc)
    ensures FetchedAt(cpu, predict) == FetchedAt(cpu, other)
  {
    hide DecodeInstruction, ReadU32, InBounds;
  }

  lemma SameCycle(predict: Prediction, other: Prediction, m: Machine, n: nat)
    requires AgreeBefore(predict, other, n) && m.cpu.stats.clockCycles < n
    ensures Cycle(predict, m) == Cycle(other, m)
  {
    hide RunBackHalf, WritebackStep, AccessThrows, FetchedAt, DecodeStep, HaltInFlight;
    if !AccessThrows(|m.cpu.memory|, m.latches.exMem) {
      BackHalfKeepsClock(m.cpu, m.latches);
      SameFetch(predict, other, RunBackHalf(m.cpu, m.latches).cpu);
    }
  }

  lemma {:induction false} SameRun(predict: Prediction, other: Prediction, a: Arch, start: Machine, n: nat)
    requires Starts(start, a) && AgreeBefore(predict, other, n)
    ensures Run(predict, start, n) == Run(other, start, n)
    ensures PositionsAt(predict, a, start, n) == PositionsAt(other, a, start, n)
  {
    hide Starts, Cycle, NextPositions;
    if n > 0 {
      SameRun(predict, other, a, start, n - 1);
      ClockCountsCycles(predict, a, start, n - 1);
      if !Over(Run(predict, start, n - 1)) {
        SameCycle(predict, other, Run(predict, start, n - 1).machine, n);
      }
    }
  }

  /** In the cycle after `n` cycles it gives the answer that the entry being fetched calls for. */
  lemma ContrivedAnswers(a: Arch, redirects: nat -> bool, start: Machine, n: nat, cpu: CpuState, pc: Word)
    requires Starts(start, a) && cpu.stats.clockCycles == n
    ensures var predict := Contrived(a, redirects, start);
            predict(cpu, pc) == AnswerAt(predict, a, redirects, start, n)
  {
    var before := Scripted(Script(a, redirects, start, n));
    FollowsScript(a, redirects, start, n);
    hide Starts, Run, PositionsAt, EntryToFetch, Answer, After, AgreeBefore;
    SameRun(Contrived(a, redirects, start), before, a, start, n);
  }

  // It redirects behind the entries it is meant to

  /** A prediction that is the right answer makes the entry fetched one that EX redirects behind, or not. */
  lemma AnsweredAsMeant(a: Arch, redirects: nat -> bool, q: Positions, ifId: IfId)
    requires CanRedirect(a, redirects) && q.next == q.id + 1 && IfIdHolds(ifId, After(a, q.id))
    requires Branches(After(a, q.id)) ==> ifId.predictedTaken == Answer(After(a, q.id), redirects(q.id))
    ensures MispredictedInIfId(a, q, ifId) <==> redirects(q.id)
  {
    hide EventAt, After, Decoded, Step, PathOf, Answer, Transfers, Branches, JumpsAway, TransfersControl;
    var b := After(a, q.id);
    FetchedAstray(a, q, ifId, ifId.predictedTaken);
    OnlyTransfersRedirect(b);
    if Branches(b) {
      TransferKinds(b);
      AnswerIsRight(b, redirects(q.id));
    } else if Transfers(b) {
      StraightPath(b, ifId.predictedTaken);
    }
  }

  lemma OnlyTransfersRedirect(b: Arch)
    ensures MayRedirect(b) ==> Transfers(b)
  {
    hide EventAt, Decoded, Step, PathOf;
  }

  lemma BranchIsPredicted(cpu: CpuState, b: Arch, predict: Prediction)
    requires IfIdHolds(FetchedAt(cpu, predict), b) && Branches(b)
    ensures FetchedAt(cpu, predict).predictedTaken == predict(cpu, cpu.pc)
  {
    hide EventAt, ReadU32, InBounds, DecodeInstruction, FetchWord, PathOf;
    BranchIsValid(b);
  }

  lemma ContrivedPredicts(a: Arch, redirects: nat -> bool, start: Machine, n: nat)
    requires Starts(start, a) && CanRedirect(a, redirects)
    requires var predict := Contrived(a, redirects, start);
             && OnTraceAt(predict, a, redirects, start, n) && FreshAt(predict, a, start, n)
             && TicksAfter(predict, start, n)
    ensures var predict := Contrived(a, redirects, start);
            PredictsAs(a, redirects, PositionsAt(predict, a, start, n), Run(predict, start, n).machine, predict)
  {
    hide Starts, CanRedirect, Contrived, Inv, StatsInv, PathInv, FaultsPrecisely, Cycle, NextPositions, BubblesFollow,
         EntryToFetch, Live, EventAt, After, FetchedAt, IfIdHolds, Branches, Answer, MispredictedInIfId, WordStands,
         Run, PositionsAt, Mispredicted;
    var predict := Contrived(a, redirects, start);
    var p, m := PositionsAt(predict, a, start, n), Run(predict, start, n).machine;
    TickMeansNoThrow(predict, m);
    if EntryToFetch(a, p, m).Some? && !EventAt(After(a, EntryToFetch(a, p, m).value)).Stuck? {
      var e := EntryToFetch(a, p, m).value;
      var cpu := FetchHappens(a, p, m, predict);
      FetchesEntry(a, p, cpu, predict, e);
      ClockCountsCycles(predict, a, start, n);
      ContrivedAnswers(a, redirects, start, n, cpu, cpu.pc);
      if Branches(After(a, e)) {
        BranchIsPredicted(cpu, After(a, e), predict);
      }
      AnsweredAsMeant(a, redirects, NextPositions(a, p, m), FetchedAt(cpu, predict));
    }
  }

  /** Every set of entries that a predictor can redirect behind is what some predictor redirects behind. */
  lemma EveryRedirectIsMade(a: Arch, redirects: nat -> bool, start: Machine)
    requires Starts(start, a) && CanRedirect(a, redirects)
    ensures RedirectsBehind(Contrived(a, redirects, start), a, redirects, start)
  {
    hide Starts, CanRedirect, Contrived, OnTraceAt, FreshAt, TicksAfter, PredictsAs;
    var predict := Contrived(a, redirects, start);
    forall n: nat |
      OnTraceAt(predict, a, redirects, start, n) && FreshAt(predict, a, start, n) && TicksAfter(predict, start, n)
      ensures PredictsAs(a, redirects, PositionsAt(predict, a, start, n), Run(predict, start, n).machine, predict)
    {
      ContrivedPredicts(a, redirects, start, n);
    }
  }

  lemma FreshWhenAllFollow(a: Arch, redirects: nat -> bool, start: Machine)
    requires Starts(start, a) && CanRedirect(a, redirects)
    requires forall predict: Prediction, n: nat :: FollowsAt(predict, a, start, n)
    ensures FetchesAreFresh(a, redirects)
  {
    hide Starts, CanRedirect, Contrived, FollowsAt, FetchesAreFresh, RedirectsBehind;
    EveryRedirectIsMade(a, redirects, start);
    FollowsIffFreshBehind(Contrived(a, redirects, start), a, redirects, start);
  }

  lemma ExtremesCanRedirect(a: Arch)
    ensures CanRedirect(a, JumpsAwayIn(a)) && CanRedirect(a, MayRedirectIn(a))
  {
    hide After, MayRedirect, JumpsAway;
    forall i: nat
      ensures JumpsAwayIn(a)(i) ==> MayRedirectIn(a)(i)
    {
      JumpsAwayMayRedirect(After(a, i));
    }
  }

  /** The condition for every predictor is exact: latches follow the trace under all of them if and only if it holds. */
  lemma AllFollowIffNoStaleFetch(a: Arch, start: Machine)
    requires Starts(start, a)
    ensures (forall predict: Prediction, n: nat :: FollowsAt(predict, a, start, n)) <==> NoStaleFetch(a)
  {
    hide Starts, FollowsAt, FetchesAreFresh, CanRedirect, MayRedirectIn, JumpsAwayIn;
    if forall predict: Prediction, n: nat :: FollowsAt(predict, a, start, n) {
      ExtremesCanRedirect(a);
      FreshWhenAllFollow(a, JumpsAwayIn(a), start);
      FreshWhenAllFollow(a, MayRedirectIn(a), start);
    }
    if NoStaleFetch(a) {
      forall predict: Prediction, n: nat
        ensures FollowsAt(predict, a, start, n)
      {
        FollowsWithoutStaleFetch(predict, a, start, n);
      }
    }
  }
}
