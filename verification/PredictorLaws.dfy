/** How well the three prediction modes do over any stream of branches, each predicted and then trained with. */
module PredictorLaws {
  import opened Words
  import opened BranchPredictor

  datatype Outcome = Outcome(branchPc: Word, taken: bool)

  predicate IsWrong(counters: CounterTable, mode: BranchPredictorType, outcome: Outcome) {
    Predict(counters, mode, outcome.branchPc) != outcome.taken
  }

  /** The number of wrong directions when the branches of `stream` are predicted and trained with, one after another. */
  function Wrong(counters: CounterTable, mode: BranchPredictorType, stream: seq<Outcome>): nat
    decreases |stream|
  {
    if stream == [] then 0
    else
      (if IsWrong(counters, mode, stream[0]) then 1 else 0)
      + Wrong(Trained(counters, mode, stream[0].branchPc, stream[0].taken), mode, stream[1..])
  }

  /** The table after the branches of `stream` have trained it. */
  function AfterStream(counters: CounterTable, mode: BranchPredictorType, stream: seq<Outcome>): CounterTable
    decreases |stream|
  {
    if stream == [] then counters
    else AfterStream(Trained(counters, mode, stream[0].branchPc, stream[0].taken), mode, stream[1..])
  }

  /** One more branch is predicted from the table that those before it have trained. */
  lemma {:induction false} OneMoreBranch(counters: CounterTable, mode: BranchPredictorType, stream: seq<Outcome>,
                                         outcome: Outcome)
    ensures var trained, more := AfterStream(counters, mode, stream), stream + [outcome];
            && AfterStream(counters, mode, more) == Trained(trained, mode, outcome.branchPc, outcome.taken)
            && Wrong(counters, mode, more)
               == Wrong(counters, mode, stream) + (if IsWrong(trained, mode, outcome) then 1 else 0)
    decreases |stream|
  {
    hide IndexFor, Trained, Predict;
    var more := stream + [outcome];
    if stream == [] {
      assert more[1..] == [];
    } else {
      assert more[0] == stream[0] && more[1..] == stream[1..] + [outcome];
      OneMoreBranch(Trained(counters, mode, stream[0].branchPc, stream[0].taken), mode, stream[1..], outcome);
    }
  }

  function Outcomes(stream: seq<Outcome>, taken: bool): nat {
    if stream == [] then 0 else (if stream[0].taken == taken then 1 else 0) + Outcomes(stream[1..], taken)
  }

  /** The table entries that the branches of `stream` share among them. */
  function Touched(stream: seq<Outcome>): set<nat> {
    if stream == [] then {} else {IndexFor(stream[0].branchPc)} + Touched(stream[1..])
  }

  // The static modes

  /** Always-not-taken is wrong on the taken branches and always-taken on the others, whatever the table holds. */
  lemma {:induction false} StaticModesAreWrong(counters: CounterTable, stream: seq<Outcome>)
    ensures Wrong(counters, AlwaysNotTaken, stream) == Outcomes(stream, true)
    ensures Wrong(counters, AlwaysTaken, stream) == Outcomes(stream, false)
    decreases |stream|
  {
    if stream != [] {
      StaticModesAreWrong(counters, stream[1..]);
    }
  }

  // Sums over the table

  function Sum(values: seq<nat>): nat {
    if values == [] then 0 else values[0] + Sum(values[1..])
  }

  lemma {:induction false} SumOfUpdate(values: seq<nat>, index: nat, value: nat)
    requires index < |values|
    ensures Sum(values[index := value]) + values[index] == Sum(values) + value
  {
    if index > 0 {
      SumOfUpdate(values[1..], index - 1, value);
      assert values[index := value][1..] == values[1..][index - 1 := value];
    } else {
      assert values[index := value][1..] == values[1..];
    }
  }

  lemma {:induction false} SumOfZeros(values: seq<nat>)
    requires forall i | 0 <= i < |values| :: values[i] == 0
    ensures Sum(values) == 0
  {
    if values != [] {
      SumOfZeros(values[1..]);
    }
  }

  // Against the taken branches

  /** How far a counter leans to taken, beyond predicting not taken. */
  function LeanToTaken(counter: Counter): nat {
    if counter == 3 then 2 else if counter == 2 then 1 else 0
  }

  function LeansToTaken(counters: CounterTable): (leans: seq<nat>)
    ensures |leans| == ENTRY_COUNT
  {
    seq(ENTRY_COUNT, i requires 0 <= i < ENTRY_COUNT => LeanToTaken(counters[i]))
  }

  /** Each wrong direction is paid for by a taken branch or by a counter that leans less than before. */
  lemma {:induction false} WrongAgainstTaken(counters: CounterTable, stream: seq<Outcome>)
    ensures Wrong(counters, TwoBitSaturating, stream) <= 2 * Outcomes(stream, true) + Sum(LeansToTaken(counters))
    decreases |stream|
  {
    hide IndexFor;
    if stream != [] {
      var outcome := stream[0];
      var index := IndexFor(outcome.branchPc);
      var trained := Trained(counters, TwoBitSaturating, outcome.branchPc, outcome.taken);
      WrongAgainstTaken(trained, stream[1..]);
      SumOfUpdate(LeansToTaken(counters), index, LeanToTaken(trained[index]));
      assert LeansToTaken(trained) == LeansToTaken(counters)[index := LeanToTaken(trained[index])];
      hide Sum;
    }
  }

  // Against the branches not taken

  function LeanToNotTaken(counter: Counter): nat {
    if counter == 0 then 2 else if counter == 1 then 1 else 0
  }

  /** Entries that no branch has used yet are not counted. */
  function LeansToNotTaken(counters: CounterTable, used: set<nat>): (leans: seq<nat>)
    ensures |leans| == ENTRY_COUNT
  {
    seq(ENTRY_COUNT, i requires 0 <= i < ENTRY_COUNT => if i in used then LeanToNotTaken(counters[i]) else 0)
  }

  ghost predicate UnusedAreInitial(counters: CounterTable, used: set<nat>) {
    forall i: nat | i < ENTRY_COUNT && i !in used :: counters[i] == WEAKLY_NOT_TAKEN
  }

  lemma FirstTouch(stream: seq<Outcome>, used: set<nat>)
    requires stream != []
    ensures var index := IndexFor(stream[0].branchPc);
            |Touched(stream) - used|
              == |Touched(stream[1..]) - (used + {index})| + (if index in used then 0 else 1)
  {
    hide IndexFor;
    var index := IndexFor(stream[0].branchPc);
    var later := Touched(stream[1..]) - (used + {index});
    assert Touched(stream) - used == if index in used then later else {index} + later;
  }

  lemma {:induction false} WrongAgainstNotTaken(counters: CounterTable, used: set<nat>, stream: seq<Outcome>)
    requires UnusedAreInitial(counters, used)
    ensures Wrong(counters, TwoBitSaturating, stream)
         <= 2 * Outcomes(stream, false) + |Touched(stream) - used| + Sum(LeansToNotTaken(counters, used))
    decreases |stream|
  {
    hide IndexFor, Touched;
    if stream != [] {
      var outcome := stream[0];
      var index := IndexFor(outcome.branchPc);
      var trained := Trained(counters, TwoBitSaturating, outcome.branchPc, outcome.taken);
      WrongAgainstNotTaken(trained, used + {index}, stream[1..]);
      var leans := LeansToNotTaken(counters, used);
      SumOfUpdate(leans, index, LeanToNotTaken(trained[index]));
      assert LeansToNotTaken(trained, used + {index}) == leans[index := LeanToNotTaken(trained[index])];
      hide Sum;
      FirstTouch(stream, used);
    }
  }

  // The competitive bounds

  lemma {:induction false} AtMostAllNumbers(numbers: set<nat>, bound: nat)
    requires forall n | n in numbers :: n < bound
    ensures |numbers| <= bound
  {
    if bound > 0 {
      AtMostAllNumbers(numbers - {bound - 1}, bound - 1);
    } else {
      assert numbers == {};
    }
  }

  lemma {:induction false} TouchedAreEntries(stream: seq<Outcome>)
    ensures forall index | index in Touched(stream) :: index < ENTRY_COUNT
  {
    if stream != [] {
      TouchedAreEntries(stream[1..]);
    }
  }

  /**
   * From reset, the two-bit table is wrong at most twice as often as always-not-taken, and at most twice as often as
   * always-taken plus once for every entry in use; so within twice the better static mode plus 64.
   */
  lemma TwoBitIsCompetitive(stream: seq<Outcome>)
    ensures var wrong := Wrong(INITIAL_COUNTERS, TwoBitSaturating, stream);
            && wrong <= 2 * Wrong(INITIAL_COUNTERS, AlwaysNotTaken, stream)
            && wrong <= 2 * Wrong(INITIAL_COUNTERS, AlwaysTaken, stream) + |Touched(stream)|
            && |Touched(stream)| <= 64
  {
    hide Wrong;
    StaticModesAreWrong(INITIAL_COUNTERS, stream);
    WrongAgainstTaken(INITIAL_COUNTERS, stream);
    SumOfZeros(LeansToTaken(INITIAL_COUNTERS));
    WrongAgainstNotTaken(INITIAL_COUNTERS, {}, stream);
    SumOfZeros(LeansToNotTaken(INITIAL_COUNTERS, {}));
    assert Touched(stream) - {} == Touched(stream);
    TouchedAreEntries(stream);
    AtMostAllNumbers(Touched(stream), ENTRY_COUNT);
  }

  // The bounds are reached

  /** A branch that is taken every other time, first of all the first time. */
  function Alternating(branchPc: Word, times: nat): seq<Outcome> {
    if times == 0 then [] else [Outcome(branchPc, true), Outcome(branchPc, false)] + Alternating(branchPc, times - 1)
  }

  lemma {:induction false} AlternatingIsAlwaysWrong(counters: CounterTable, branchPc: Word, times: nat)
    requires counters[IndexFor(branchPc)] == WEAKLY_NOT_TAKEN
    ensures Wrong(counters, TwoBitSaturating, Alternating(branchPc, times)) == 2 * times
    ensures Outcomes(Alternating(branchPc, times), true) == times == Outcomes(Alternating(branchPc, times), false)
    decreases times
  {
    hide IndexFor;
    if times > 0 {
      var rest := Alternating(branchPc, times - 1);
      var once := [Outcome(branchPc, false)] + rest;
      assert Alternating(branchPc, times) == [Outcome(branchPc, true)] + once;
      assert Alternating(branchPc, times)[1..] == once && once[1..] == rest;
      var first := Trained(counters, TwoBitSaturating, branchPc, true);
      var second := Trained(first, TwoBitSaturating, branchPc, false);
      AlternatingIsAlwaysWrong(second, branchPc, times - 1);
      assert Wrong(first, TwoBitSaturating, once) == 1 + Wrong(second, TwoBitSaturating, rest);
    }
  }

  // Which branches share an entry

  function EntryBitsOf(address: bv32): bv6 {
    ((address >> 2) & 63) as bv6
  }

  lemma EntryBits(branchPc: Word)
    ensures IndexFor(branchPc) == EntryBitsOf(branchPc.bits) as nat
  {
    assert ((branchPc.bits >> 2) % 64) as bv6 == EntryBitsOf(branchPc.bits);
  }

  lemma SameBits(x: bv32, y: bv32)
    ensures EntryBitsOf(x) == EntryBitsOf(y) <==> x & 0xFC == y & 0xFC
  {
  }

  lemma SameNumber(x: bv6, y: bv6)
    ensures x as nat == y as nat <==> x == y
  {
    assert (x as nat) as bv6 == x && (y as nat) as bv6 == y;
  }

  /** Two branches share an entry exactly when their addresses agree in bits 2 to 7. */
  lemma EntriesAreSharedBy(x: Word, y: Word)
    ensures IndexFor(x) == IndexFor(y) <==> x.bits & 0xFC == y.bits & 0xFC
  {
    hide IndexFor, EntryBitsOf;
    EntryBits(x);
    EntryBits(y);
    SameBits(x.bits, y.bits);
    SameNumber(EntryBitsOf(x.bits), EntryBitsOf(y.bits));
  }

  // What the table remembers

  /** The static modes learn nothing. */
  lemma {:induction false} StaticModesLearnNothing(counters: CounterTable, mode: BranchPredictorType,
                                                   stream: seq<Outcome>)
    requires mode != TwoBitSaturating
    ensures AfterStream(counters, mode, stream) == counters
    decreases |stream|
  {
    if stream != [] {
      StaticModesLearnNothing(counters, mode, stream[1..]);
    }
  }

  /** A direction believed in, and whether the last outcome has confirmed it. */
  datatype Belief = Belief(taken: bool, confirmed: bool)

  /** An outcome confirms a belief, shakes a confirmed one or turns a shaken one. */
  function Revised(belief: Belief, taken: bool): Belief {
    if taken == belief.taken then Belief(taken, true)
    else if belief.confirmed then Belief(belief.taken, false)
    else Belief(taken, false)
  }

  function BeliefAfter(belief: Belief, outcomes: seq<bool>): Belief
    decreases |outcomes|
  {
    if outcomes == [] then belief else BeliefAfter(Revised(belief, outcomes[0]), outcomes[1..])
  }

  /** The outcomes in `stream` of the branches whose addresses agree with this one in bits 2 to 7. */
  function HistoryOf(branchPc: Word, stream: seq<Outcome>): seq<bool>
    decreases |stream|
  {
    if stream == [] then []
    else
      (if stream[0].branchPc.bits & 0xFC == branchPc.bits & 0xFC then [stream[0].taken] else [])
      + HistoryOf(branchPc, stream[1..])
  }

  predicate Stands(counter: Counter, belief: Belief) {
    counter == if belief.taken then if belief.confirmed then 3 else 2 else if belief.confirmed then 0 else 1
  }

  lemma TrainingRevises(counters: CounterTable, outcome: Outcome, branchPc: Word, belief: Belief)
    requires Stands(counters[IndexFor(branchPc)], belief)
    ensures var trained := Trained(counters, TwoBitSaturating, outcome.branchPc, outcome.taken);
            if outcome.branchPc.bits & 0xFC == branchPc.bits & 0xFC
            then Stands(trained[IndexFor(branchPc)], Revised(belief, outcome.taken))
            else Stands(trained[IndexFor(branchPc)], belief)
  {
    hide IndexFor;
    EntriesAreSharedBy(outcome.branchPc, branchPc);
  }

  lemma {:induction false} TableRemembers(counters: CounterTable, stream: seq<Outcome>, branchPc: Word, belief: Belief)
    requires Stands(counters[IndexFor(branchPc)], belief)
    ensures Stands(AfterStream(counters, TwoBitSaturating, stream)[IndexFor(branchPc)],
                   BeliefAfter(belief, HistoryOf(branchPc, stream)))
    decreases |stream|
  {
    hide IndexFor, Trained, Stands, Revised;
    if stream != [] {
      var outcome := stream[0];
      TrainingRevises(counters, outcome, branchPc, belief);
      var trained := Trained(counters, TwoBitSaturating, outcome.branchPc, outcome.taken);
      var rest := HistoryOf(branchPc, stream[1..]);
      if outcome.branchPc.bits & 0xFC == branchPc.bits & 0xFC {
        assert ([outcome.taken] + rest)[1..] == rest;
        TableRemembers(trained, stream[1..], branchPc, Revised(belief, outcome.taken));
      } else {
        assert [] + rest == rest;
        TableRemembers(trained, stream[1..], branchPc, belief);
      }
    }
  }

  /**
   * What the two-bit table predicts of a branch, after any stream from reset: the direction believed in by someone who
   * has seen the outcomes of the branches of its entry, starts out expecting no branch to be taken, and changes his
   * mind when two outcomes in a row have gone against him.
   */
  lemma TwoBitHasHysteresis(stream: seq<Outcome>, branchPc: Word)
    ensures Predict(AfterStream(INITIAL_COUNTERS, TwoBitSaturating, stream), TwoBitSaturating, branchPc)
       <==> BeliefAfter(Belief(false, false), HistoryOf(branchPc, stream)).taken
  {
    hide IndexFor, AfterStream, BeliefAfter, HistoryOf;
    TableRemembers(INITIAL_COUNTERS, stream, branchPc, Belief(false, false));
  }

  // Loops

  /** A branch taken this many times, and then not. */
  function LoopOnce(branchPc: Word, times: nat): seq<Outcome>
    decreases times
  {
    if times == 0 then [Outcome(branchPc, false)] else [Outcome(branchPc, true)] + LoopOnce(branchPc, times - 1)
  }

  /** A loop entered again and again, with these numbers of iterations. */
  function Loops(branchPc: Word, runs: seq<nat>): seq<Outcome> {
    if runs == [] then [] else LoopOnce(branchPc, runs[0]) + Loops(branchPc, runs[1..])
  }

  lemma {:induction false} WrongOfBoth(counters: CounterTable, mode: BranchPredictorType, s: seq<Outcome>,
                                       t: seq<Outcome>)
    ensures Wrong(counters, mode, s + t) == Wrong(counters, mode, s) + Wrong(AfterStream(counters, mode, s), mode, t)
    decreases |s|
  {
    hide Trained, IsWrong;
    if s == [] {
      assert s + t == t;
    } else {
      assert (s + t)[0] == s[0] && (s + t)[1..] == s[1..] + t;
      WrongOfBoth(Trained(counters, mode, s[0].branchPc, s[0].taken), mode, s[1..], t);
    }
  }

  /** A loop branch that is expected to be taken is mispredicted at the exit alone, and expected to be taken again. */
  lemma {:induction false} ExpectedLoop(counters: CounterTable, branchPc: Word, times: nat)
    requires counters[IndexFor(branchPc)] == 3 || (times > 0 && counters[IndexFor(branchPc)] == 2)
    ensures Wrong(counters, TwoBitSaturating, LoopOnce(branchPc, times)) == 1
    ensures AfterStream(counters, TwoBitSaturating, LoopOnce(branchPc, times))[IndexFor(branchPc)] == 2
    decreases times
  {
    hide IndexFor;
    var stream := LoopOnce(branchPc, times);
    if times == 0 {
      assert stream[1..] == [];
    } else {
      assert stream[1..] == LoopOnce(branchPc, times - 1);
      ExpectedLoop(Trained(counters, TwoBitSaturating, branchPc, true), branchPc, times - 1);
    }
  }

  lemma {:induction false} ExpectedLoops(counters: CounterTable, branchPc: Word, runs: seq<nat>)
    requires counters[IndexFor(branchPc)] == 2 && forall i | 0 <= i < |runs| :: runs[i] > 0
    ensures Wrong(counters, TwoBitSaturating, Loops(branchPc, runs)) == |runs|
    decreases |runs|
  {
    hide IndexFor, AfterStream, LoopOnce, Wrong;
    if runs == [] {
      NothingWrong(counters);
    } else {
      var once := LoopOnce(branchPc, runs[0]);
      WrongOfBoth(counters, TwoBitSaturating, once, Loops(branchPc, runs[1..]));
      ExpectedLoop(counters, branchPc, runs[0]);
      ExpectedLoops(AfterStream(counters, TwoBitSaturating, once), branchPc, runs[1..]);
    }
  }

  lemma NothingWrong(counters: CounterTable)
    ensures Wrong(counters, TwoBitSaturating, []) == 0
  {
  }

  lemma FirstLoop(counters: CounterTable, branchPc: Word, times: nat)
    requires counters[IndexFor(branchPc)] == WEAKLY_NOT_TAKEN && times > 1
    ensures Wrong(counters, TwoBitSaturating, LoopOnce(branchPc, times)) == 2
    ensures AfterStream(counters, TwoBitSaturating, LoopOnce(branchPc, times))[IndexFor(branchPc)] == 2
  {
    hide IndexFor;
    assert LoopOnce(branchPc, times)[1..] == LoopOnce(branchPc, times - 1);
    ExpectedLoop(Trained(counters, TwoBitSaturating, branchPc, true), branchPc, times - 1);
  }

  /**
   * What the hysteresis is for: from reset, a loop is mispredicted once when it is first entered and once at each exit,
   * and never when it is entered again, as long as each run iterates at least twice.
   */
  lemma LoopsAreLearnt(branchPc: Word, runs: seq<nat>)
    requires runs != [] && forall i | 0 <= i < |runs| :: runs[i] > 1
    ensures Wrong(INITIAL_COUNTERS, TwoBitSaturating, Loops(branchPc, runs)) == |runs| + 1
  {
    hide IndexFor, AfterStream, LoopOnce, Wrong;
    var once := LoopOnce(branchPc, runs[0]);
    WrongOfBoth(INITIAL_COUNTERS, TwoBitSaturating, once, Loops(branchPc, runs[1..]));
    FirstLoop(INITIAL_COUNTERS, branchPc, runs[0]);
    ExpectedLoops(AfterStream(INITIAL_COUNTERS, TwoBitSaturating, once), branchPc, runs[1..]);
  }
}
