/** The branch predictor: two static modes and a table of 64 two-bit saturating counters (src/branch_predictor.cpp). */
module BranchPredictor {
  import opened Words

  datatype BranchPredictorType = AlwaysNotTaken | AlwaysTaken | TwoBitSaturating

  const ENTRY_COUNT: nat := 64

  const WEAKLY_NOT_TAKEN: Counter := 1
  const WEAKLY_TAKEN: Counter := 2
  const STRONGLY_TAKEN: Counter := 3

  type Counter = n: nat | n <= 3

  type CounterTable = table: seq<Counter> | |table| == ENTRY_COUNT witness INITIAL_COUNTERS

  const INITIAL_COUNTERS: seq<Counter> := seq(ENTRY_COUNT, _ => WEAKLY_NOT_TAKEN)

  function IndexFor(branchPc: Word): (index: nat)
    ensures index < ENTRY_COUNT
  {
    ((branchPc.bits >> 2) % 64) as bv6 as nat
  }

  predicate Predict(counters: CounterTable, mode: BranchPredictorType, branchPc: Word) {
    match mode
    case AlwaysNotTaken => false
    case AlwaysTaken => true
    case TwoBitSaturating => counters[IndexFor(branchPc)] >= WEAKLY_TAKEN
  }

  function NextCounter(counter: Counter, taken: bool): Counter {
    if taken then if counter < STRONGLY_TAKEN then counter + 1 else counter
    else if counter > 0 then counter - 1 else counter
  }

  /** The table after it has been trained with the outcome of one branch. */
  function Trained(counters: CounterTable, mode: BranchPredictorType, branchPc: Word, taken: bool): CounterTable {
    if mode != TwoBitSaturating then counters
    else counters[IndexFor(branchPc) := NextCounter(counters[IndexFor(branchPc)], taken)]
  }

  class BranchPredictor {
    const counters: array<Counter>

    ghost predicate Valid() {
      counters.Length == ENTRY_COUNT
    }

    ghost function Table(): CounterTable
      requires Valid()
      reads counters
    {
      counters[..]
    }

    constructor ()
      ensures Valid() && fresh(counters) && Table() == INITIAL_COUNTERS
    {
      counters := new Counter[ENTRY_COUNT](_ => WEAKLY_NOT_TAKEN);
    }

    method Reset()
      requires Valid()
      modifies counters
      ensures Table() == INITIAL_COUNTERS
    {
      for i := 0 to counters.Length
        invariant forall k | 0 <= k < i :: counters[k] == WEAKLY_NOT_TAKEN
      {
        counters[i] := WEAKLY_NOT_TAKEN;
      }
    }

    method PredictBranch(branchPc: Word, mode: BranchPredictorType) returns (taken: bool)
      requires Valid()
      ensures taken == Predict(Table(), mode, branchPc)
    {
      match mode
      case AlwaysNotTaken => taken := false;
      case AlwaysTaken => taken := true;
      case TwoBitSaturating => taken := counters[IndexFor(branchPc)] >= WEAKLY_TAKEN;
    }

    method Update(branchPc: Word, taken: bool, mode: BranchPredictorType)
      requires Valid()
      modifies counters
      ensures Table() == Trained(old(Table()), mode, branchPc, taken)
    {
      if mode != TwoBitSaturating {
        return;
      }
      var index := IndexFor(branchPc);
      if taken {
        if counters[index] < STRONGLY_TAKEN {
          counters[index] := counters[index] + 1;
        }
      } else if counters[index] > 0 {
        counters[index] := counters[index] - 1;
      }
    }
  }
}
