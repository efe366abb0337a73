# A verified model of the five-stage RV32I pipeline simulator

The simulator runs RV32I programs on a pipeline of five stages with operand forwarding, a load-use interlock,
speculative fetch from a branch predictor, flush on misprediction and a halt barrier. No part of it is correct on its
own: an operand in EX is right only because of the forwarding priority, the stall rule, WB running before ID and the
decoder's control bits together. This project states what the whole is for and proves it.

- **The reference machine** (`Isa`) executes one instruction at a time, after sections 2.4, 2.5, 2.6 and 2.8 of the
  RISC-V Unprivileged ISA (20191213). It knows no control signals, latches or prediction, and computes with its own
  definitions of signed comparison, arithmetic shift, extension and little-endian memory. What it shares with the
  simulator is characterised by itself: operations on words as integer arithmetic (`WordLaws`, `Numbers`), the decoder
  against the ISA's listing (`Patterns`), operand use by what can change an instruction's effect (`OperandUse`), and the
  branch predictor by what it remembers (`PredictorLaws`). It follows the simulator
  where that goes its own way: ecall and ebreak halt, a word that does not decode is passed over without retiring,
  there are no misalignment traps, an access out of bounds faults, and a fetch out of bounds never progresses.
- **The pipeline** has two forms. `Stages` gives each stage and the cycle as functions on the CPU state and the four
  latches. `Cpu`, `PipelineRegisters`, `BranchPredictor`, `PipelineMachine` and `Driver` hold the classes and methods
  that update the state in place, in the simulator's order; each is proved equal to its function, down to the driver
  loop, so the theorems about runs are theorems about these methods.
- **The refinement** (`Datapath`, `Correspondence`, `LatchInvariants`, `Refinement`, `Runs`) is a trace-indexed
  invariant: five cuts through the reference machine's trace, one per stage, and what each latch, the register file,
  memory and the program counter hold at them. Prediction is an arbitrary function of the whole CPU state here.
- **Self-modifying code** (`FetchWindow`, `ExactFetch`, `EveryPredictor`, `AsFetched`, `StaleFetch`): exactly which
  stores can be fetched past, for the simulator's own predictor and for all predictors at once; and what the pipeline
  refines if they are: a sequential machine that executes each word as it stood when it was fetched.
- **Time and statistics** (`Accounting`, `Timing`, `Progress`, `Faults`, `CycleLaws`, `Mispredictions`): every counter
  is a count over the trace, the cycles to a halt or a throw are exact, every entry of the trace retires in time whether
  or not the program ends, runs end exactly when the ISA's do, and the pipeline mispredicts no more than its table would
  in program order.
- **Laws of the machine alone** (`MachineLaws`): what every run keeps without the ISA playing a part, whatever the
  program does: the write log and the halt barrier. `CycleLaws.SlotsByCause` and the misprediction bounds are such too.
- **Side cores**: decode and encode over all 32-bit words (`Decoder`, `Instruction`, `Patterns`, `Encoding`),
  mixed-width memory and the write log (`Memory`, `MemoryLaws`), the two-bit table by itself (`PredictorLaws`), and the
  memory ranges of a state dump (`StateDump`).

## Hypotheses

A run starts with empty latches, zero statistics and the program counter on the first instruction (`Runs.Starts`), and
goes on until the CPU halts or a bounds check throws. Where the trace is cut after `n` cycles is a function of the run
(`Runs.PositionsAt`), so that what is said of registers, memory, latches and statistics is said of the same entries.

The reference machine normally executes what its memory holds (`InMemory`); it can also execute a given record of
words, one per step (`Recorded`). What is said of "the ISA" below is proved for both.

The one hypothesis on programs is `Runs.FetchesSafely`, a condition on the trace. IF runs after MEM in a cycle, so an
instruction is fetched from memory as it stands two entries before it, or one if fetch is held up on the way by a
redirect or a load: before its *fetch cut*, which the entries that EX redirects behind determine. The condition says
that its word stands there already (`FetchWindow.FetchesAreFresh`), in one of two forms.

- For every predictor at once, `FetchWindow.NoStaleFetch` asks it of two sets of entries: those that every predictor
  redirects behind, and those that some predictor does. The latches follow the trace in every run under every predictor
  if and only if it holds (`EveryPredictor.AllFollowIffNoStaleFetch`). Stores that spare the next instruction, and the
  one after it unless a jump away or a load holds fetch up, satisfy it (`StaleFetch.KeepingClearSuffices`).
- For the simulator's own predictor, in a given mode and from a given table, the redirects are a function of the trace
  (`FetchWindow.RedirectsIn`). The latches follow the trace at every moment of the run if and only if the condition
  holds for these (`ExactFetch.FollowsIffFresh`), and it follows from the first form
  (`ExactFetch.NoStaleFetchMeansFresh`).

Without the hypothesis, the simulator's own runs refine the sequential machine that executes, as entry `n`, the word
standing at that entry's own fetch cut (`AsFetched.EveryRunRefines`). It satisfies the hypothesis by itself, so every
theorem below about `CONFIGURED` runs holds of it for every program; it has the ISA's trace exactly if the program is
fetched fresh (`AsFetched.IsaIffFresh`).

`StaleFetch` gives a program for each of the two distances at which it fails. The ISA asks software for as much: its
Zifencei chapter makes no promise about fetching a stored word before a FENCE.I, which RV32I as simulated here lacks.

Where the code and its documentation differ, the model follows the code: `enable_forwarding` (include/config.hpp:12-14)
is described as a switch but never read, so forwarding is always on; and ecall and ebreak are recognised whatever their
rd and rs1 fields hold (src/instruction.cpp:296-309), so `Encoding` encodes those fields as given.

## Model

| member | source | states |
|---|---|---|
| AsFetched.EveryRunRefines | src/stages.cpp:332-362 | for every program, self-modifying or not, at every moment of every run of the simulator: registers, memory, log, counts and latches are those of the sequential machine that executes each entry as it stood at its own fetch cut, and a throw is precise for it |
| AsFetched.ExecutesWhatIsFetched | src/stages.cpp:304-330 | entry n of that machine, a function of program, mode and table, executes the word that its own memory holds at entry n's fetch cut |
| AsFetched.FreshAgree | src/stages.cpp:304-330 | it is the only one: two machines that start alike and are fetched fresh go through the same trace |
| AsFetched.IsaIffFresh | src/stages.cpp:304-330 | it has the ISA's trace exactly if that trace is fetched fresh |
| AsFetched.EveryRunEnds | src/stages.cpp:332-362 | for every program, the simulator ever halts, and ever throws, exactly when that machine does |
| AsFetched.EveryHaltIsExact | src/stages.cpp:332-362 | and it halts in that machine's state, after the exact number of cycles that the machine's trace accounts for |
| Runs.RunRefinesIsa | src/stages.cpp:332-362 | at every moment of every run, for every image and every predictor, the registers are the ISA's after exactly the entries that have left WB, memory and the write log after exactly those that have left MEM, the retired count says how many retired, and the CPU is halted exactly when the ISA is |
| Refinement.CyclePreserves | src/stages.cpp:332-362 | one cycle takes the trace-indexed invariant from its cuts to the next ones, whatever is predicted, and throws only at a faulting entry |
| Runs.OperandsAreCorrect | src/forwarding_unit.cpp:51-86 | in every reachable state, each operand that the instruction in EX reads, as forwarding resolves it, is the ISA's register value just before that instruction, which is the first or second entry after those that registers and memory have seen |
| Refinement.ForwardingCorrect | src/forwarding_unit.cpp:51-86 | EX/MEM over MEM/WB over the value read in ID gives the register value after both producers, if no load in EX/MEM writes the operand |
| Forwarding.ForwardedExactly | src/forwarding_unit.cpp:8-49 | an operand is flagged as forwarded exactly if an instruction ahead writes its register, not x0, and has the value; otherwise it is as ID read it |
| Refinement.InterlockHolds | src/hazard_unit.cpp:84-108 | what the interlock lets past ID reads no register that a load just ahead of it writes |
| Runs.LatchesFollowTrace | src/stages.cpp:164-330 | MEM/WB, EX/MEM and ID/EX hold consecutive entries of the trace without gaps or duplicates, and IF/ID the next one unless ID/EX holds a mispredicted transfer, at the cuts at which registers and memory are the ISA's |
| Runs.WrongPathIsDropped | src/stages.cpp:247-261 | behind a mispredicted transfer, the next cycle drops the word in IF/ID and fetches the entry the ISA goes to |
| CycleLaws.WrongPathNeverExecutes | src/stages.cpp:247-261 | in every run, at the cuts at which registers and memory are the ISA's, a word fetched behind a mispredicted transfer never reaches ID/EX, and the next fetch is the ISA's next instruction |
| Refinement.RedirectsWhenMispredicted | src/stages.cpp:217-250 | EX redirects fetch exactly when the trace does not go on where fetch was predicted to, and then to the right address |
| Runs.FaultsArePrecise | src/stages.cpp:332-337 | when a bounds check throws, registers, memory, write log, retired count and predictor table are exactly those of the ISA just before the faulting entry |
| Faults.ThrowsInTime | src/cpu.cpp:207-216 | if the ISA faults at entry k, every run throws within 2k + 4 cycles, precisely at that entry |
| Faults.ThrowsOnTime | src/cpu.cpp:207-216 | and in cycle k + 4 + load-use pairs + mispredictions + jumps away exactly, having stalled once per pair, and once more exactly if the word behind the faulting entry reads what that entry loads |
| Faults.FaultInMem | src/stages.cpp:341-348 | while the faulting entry is in MEM, just before the throw, the clock and the stalls are exactly these |
| Faults.ThrowsIffIsaFaults | src/cpu.cpp:207-216 | a run ever throws exactly when the ISA faults, so no wrong-path access throws |
| Timing.HaltsInTime | src/stages.cpp:332-362 | a program that halts with its L-th entry halts the pipeline within 2L + 3 cycles, in the ISA's state, after L + 4 + load-use pairs + mispredictions + jumps away cycles exactly |
| Timing.HaltedRunIsFinished | src/stages.cpp:147-162 | a halted pipeline means a halted ISA, with the same registers, memory, log, program counter and counts, and the exact number of cycles |
| Timing.HaltsIffIsaHalts | src/stages.cpp:332-362 | the pipeline ever halts exactly when the ISA does |
| Timing.PredictionIsTransparent | src/stages.cpp:319-328 | of two runs of one program under any two predictors one halts exactly when the other does, and they agree on everything but cycles, mispredictions and tables |
| Progress.EntriesRetireInTime | src/stages.cpp:332-362 | whether or not the program ends, of the first L entries of the trace all that execute have retired within 2L + 3 cycles |
| Progress.EntryIsDecoded | src/stages.cpp:255-302 | after 2k + 2 cycles entry k has entered ID/EX |
| Progress.EntryIsFetched | src/stages.cpp:304-330 | after 2k + 1 cycles entry k has been fetched |
| Timing.DelaysAreBounded | src/stages.cpp:341-358 | load-use stalls and redirects together are fewer than the entries of the trace |
| CycleLaws.StatisticsAreExplained | src/stages.cpp:341-348 | in every reachable state, at the same cuts: the retired, branch and training counts are those of the trace, in program order; stalls are the load-use pairs whose second entry has reached ID; cycles are the fetches, delays, drain and waits for an unreachable address; and an entry in ID/EX, faulting or not, came there with the exact clock and stall count that the trace says (`Faults.FaultInMem` has the one cycle a fault has left after that) |
| CycleLaws.NoTwoStallsInARow | src/stages.cpp:341-348 | no two consecutive cycles stall |
| CycleLaws.HaltIsABarrier | src/stages.cpp:352-358 | while a halt is in flight, nothing enters ID/EX or IF/ID and the program counter stays behind the halt |
| MachineLaws.NothingPassesHalt | src/stages.cpp:42-46 | in every run from empty latches, whatever the program and the predictor: the same |
| CycleLaws.HaltEndsTrace | src/stages.cpp:352-358 | in every run: the trace really ends with the halt in flight, and the program counter is just behind it |
| CycleLaws.SlotsAreConserved | src/stages.cpp:147-162 | at every moment of a run, cycles are retired instructions plus bubbles seen by WB |
| CycleLaws.BubblesAreExplained | src/stages.cpp:255-278 | in every reachable state, unless a faulting entry has been fetched, bubbles seen by WB are entries in flight, load-use stalls, mispredicted branches, jumps away, undecodable words, fruitless fetches and the drain behind a halt |
| CycleLaws.BubblesOfProgram | src/stages.cpp:255-278 | the bubbles of a halted run are four to fill the pipeline and one per load-use pair, mispredicted branch, jump away and undecodable word |
| CycleLaws.SlotsByCause | src/stages.cpp:255-278 | in every run of any program, cycles are the instructions that entered ID/EX, retired or in flight, plus bubbles with exactly one cause each: flush, stall, empty IF/ID or undecodable word; the stalls are those counted |
| CycleLaws.FlushesAreRedirects | src/stages.cpp:247-261 | the flushes of a run are the mispredicted branches counted and the jumps away that EX has resolved |
| CycleLaws.ClockIsExplained | src/stages.cpp:360-361 | in every reachable state, unless a faulting entry has been fetched, each cycle is accounted for by the trace or by a wait for an unreachable address |
| Mispredictions.MispredictionsAreBounded | src/stages.cpp:221-236 | at every moment of any program's run from a reset table, also at a throw, mispredictions are at most those of the branches EX has resolved that went against a static mode, and with the two-bit table at most 2 x taken and at most 2 x not taken + table entries touched, which are at most 64 |
| Mispredictions.MispredictionsOfProgram | src/stages.cpp:221-236 | the comparison with predict-then-train and these bounds at the end of a program, over all branches of its trace |
| Mispredictions.AccountGrows | src/stages.cpp:221-236 | per cycle, in every mode, mispredictions plus an outdated prediction in ID/EX grow by at most one, and only when the table trained with every older branch is wrong |
| Mispredictions.NoWorseThanSequential | src/stages.cpp:221-236 | at every moment of any program's run, in every mode and from any table, also at a throw: the table is trained with the branches EX has resolved, in order, their number is counted, and at most as many were mispredicted as predicting and training one after another gets wrong |
| Mispredictions.OwnIsTrace | src/stages.cpp:221-236 | those branches are the trace's, up to EX's cut, with their directions |
| Mispredictions.MispredictionsAreExact | src/stages.cpp:233-236 | in every mode and from any table, mispredictions are exactly the branches of the trace that leave the path fetch takes, itself a function of the trace |
| Mispredictions.CyclesOfProgram | src/stages.cpp:332-362 | so the cycles of a program are L + 4 + load-use pairs + jumps away + those branches: a function of its trace in each mode |
| Mispredictions.PredictionSeesTraining | src/stages.cpp:319-325 | the prediction in IF/ID comes from a table trained in program order with every branch before the entry in ID/EX; full training would say otherwise only if that entry is a branch of the same table entry that the table was wrong about |
| PredictorLaws.TwoBitIsCompetitive | src/branch_predictor.cpp:20-53 | predicting and training one branch after another from reset, the two-bit table is wrong at most 2 x always-not-taken, and at most 2 x always-taken + entries touched, which are at most 64 |
| PredictorLaws.StaticModesAreWrong | src/branch_predictor.cpp:24-36 | always-not-taken is wrong on exactly the taken branches and always-taken on exactly the others |
| PredictorLaws.EntriesAreSharedBy | src/branch_predictor.cpp:61-63 | two branches share a table entry exactly when their addresses agree in bits 2 to 7 |
| PredictorLaws.AlternatingIsAlwaysWrong | src/branch_predictor.cpp:38-53 | the factor two is reached: an alternating branch is mispredicted every time |
| PredictorLaws.TwoBitHasHysteresis | src/branch_predictor.cpp:38-53 | after any stream from reset, the prediction for a branch is the belief of someone who has seen the outcomes at addresses agreeing with it in bits 2 to 7, first expects no branch to be taken and changes his mind after two outcomes in a row against it |
| PredictorLaws.LoopsAreLearnt | src/branch_predictor.cpp:38-53 | from reset, a loop run r times, with at least two iterations each, is mispredicted r + 1 times: once at the first entry and once at each exit |
| PredictorLaws.StaticModesLearnNothing | src/branch_predictor.cpp:38-42 | no stream of branches changes the table in the static modes |
| Encoding.DecodeThenEncode | src/instruction.cpp:69-316 | every word that decodes as valid is the encoding of its own kind, registers and immediate, and that immediate is legal |
| Encoding.EncodeThenDecode | tests/simulator_tests.cpp:18-85 | every legal instruction comes back from its encoding with its kind, its immediate and every register its format has |
| Encoding.ValidWordsAreEncodings | src/instruction.cpp:405-407 | the words the decoder accepts are exactly the encodings of legal instructions |
| Encoding.DecodedImmediatesFit | src/decoder.cpp:62-123 | assembled immediates lie in their signed 12-, 13- and 21-bit ranges, B and J immediates are even, U immediates have their low bits clear |
| Instruction.DecodedControl | src/instruction.cpp:32-65 | whatever the word, its control signals are those its kind calls for, and an invalid word controls nothing |
| Patterns.KindIsItsRow | src/instruction.cpp:69-316 | a word decodes as an instruction exactly if it has the opcode and function codes of that instruction's row in the ISA's listing, given as literal numbers |
| Patterns.DecodedFields | src/instruction.cpp:20-30 | the decoded opcode, registers and function codes are the bits of the word at their places |
| Patterns.DecodedFormat | src/instruction.cpp:69-316 | the format is that of the opcode, also for words that are not valid |
| Instruction.Decode | src/instruction.cpp:69-316 | filling in the instruction case by case gives the decoded instruction of the word |
| Datapath.DecodedAccess | src/instruction.cpp:46-65 | for every word, the access its control signals ask for is as wide as its kind's, zero-extended exactly for lbu and lhu, and a read or a write exactly for loads and stores |
| Datapath.AluAgrees | src/stages.cpp:48-78 | the ALU computes the ISA's result of every arithmetic kind |
| Numbers.AluComputes | src/stages.cpp:48-78 | as numbers, for every arithmetic kind: sums and differences modulo 2^32, logic and the three shifts bit by bit, signed comparisons in two's complement and unsigned ones |
| WordLaws.IndexIsNumber | src/stages.cpp:48-78 | a word is the number its 32 bits write in base two |
| WordLaws.PlusAddsModulo | src/stages.cpp:52-53 | addition is addition of numbers modulo 2^32, proved through the carries |
| WordLaws.MinusSubtractsModulo | src/stages.cpp:54-55 | subtraction is subtraction of numbers modulo 2^32, proved through the borrows |
| WordLaws.PlusFourAdds | src/stages.cpp:304-330 | the next instruction in memory order is four bytes on, modulo 2^32 |
| WordLaws.BelowComparesNumbers | src/stages.cpp:72-73 | the unsigned comparison compares numbers |
| WordLaws.LogicActsOnBits | src/stages.cpp:56-61 | and, or and exclusive or act bit by bit |
| WordLaws.LeftShiftMovesBits | src/stages.cpp:62-63 | bit i of a left shift is bit i - n, or zero |
| WordLaws.RightShiftMovesBits | src/stages.cpp:64-65 | bit i of a logical right shift is bit i + n, or zero |
| Datapath.ArithmeticShiftAgrees | src/stages.cpp:66-67 | the signed right shift fills with copies of the sign bit |
| Datapath.BranchAgrees | src/stages.cpp:80-99 | every branch kind is decided as the ISA decides it |
| Numbers.BranchesCompareNumbers | src/stages.cpp:80-99 | every branch is taken exactly when its numbers compare so, in two's complement for blt and bge |
| Datapath.LoadAgrees | src/stages.cpp:101-123 | every load reads the little-endian bytes at its address, zero-extended or in two's complement as its kind says |
| Numbers.LoadsReadNumbers | src/stages.cpp:101-123 | every load gives the number that its one, two or four bytes write in base 256, or read in two's complement |
| Datapath.StoreAgrees | src/stages.cpp:125-143 | every store writes the low-order bytes of its value, as many as its kind says, and no others |
| Numbers.StoresWriteDigits | src/stages.cpp:125-143 | every store leaves the low-order base-256 digits of its value, lowest first, and every other byte as it was |
| Correspondence.OperandUseIsAdequate | src/hazard_unit.cpp:18-82 | for every word, register files that agree on the registers marked as used give the same transfer, access, memory and writeback |
| OperandUse.OperandUseIsExact | src/hazard_unit.cpp:18-82 | a kind is marked as using rs1, or rs2, exactly if some instruction of the kind has another effect on the reference machine when that register alone differs |
| OperandUse.StallsExactly | src/hazard_unit.cpp:84-108 | the interlock stalls precisely for a load in ID/EX into a register that can matter, in that sense, to the instruction in IF/ID |
| Correspondence.TransferAgrees | src/stages.cpp:217-245 | what EX resolves from the true operands is where the ISA goes next |
| Correspondence.IdExContents | src/stages.cpp:255-302 | every field of ID/EX for a valid word: its registers and codes are the word's bits, its format that of the opcode, its operands the registers read |
| Correspondence.ExMemContents | src/stages.cpp:192-230 | every field of EX/MEM for an instruction is told by the ISA: its operands, addresses and whether and where it transfers control |
| Correspondence.MemWbContents | src/stages.cpp:164-190 | and every field of MEM/WB, with zero for the data of what is no load |
| Correspondence.ThrowsAgree | src/stages.cpp:181-187 | MEM throws for exactly the instructions that fault |
| Correspondence.StoreEffectAgrees | src/stages.cpp:185-187 | MEM leaves the ISA's memory and write log |
| Correspondence.WritebackAgrees | src/stages.cpp:25-40 | WB leaves the ISA's register file |
| Memory.ReadU16IsLittleEndian | src/cpu.cpp:92-97 | a half word is read as the little-endian number of its two bytes |
| Memory.ReadU32IsLittleEndian | src/cpu.cpp:99-107 | a word is read as the little-endian number of its four bytes |
| Memory.WriteU16IsLittleEndian | src/cpu.cpp:115-121 | a half word is stored as its two low-order bytes, and nothing else changes |
| Memory.WriteU32IsLittleEndian | src/cpu.cpp:123-131 | a word is stored as its four bytes, least significant first, and nothing else changes |
| Memory.BytesRoundTrip | src/cpu.cpp:99-131 | a word taken apart into bytes and put together again is the same word |
| MemoryLaws.LastStoreWins | src/cpu.cpp:109-131 | after any stores of mixed widths at any alignment, each byte is the one its last writer put there, or the loaded one |
| MemoryLaws.LoadSeesLastStores | src/stages.cpp:101-143 | a load of any width after any stores returns the little-endian number of the bytes their last writers left, extended as the kind of load says |
| MachineLaws.RunLogsItsWrites | src/cpu.cpp:218-220 | from any machine, after any number of cycles and also at a throw, each byte that has changed lies in a range logged since |
| MachineLaws.RunLogFits | src/cpu.cpp:109-131 | each logged range lies within memory, if those logged before do |
| StaleFetch.KeepingClearSuffices | src/stages.cpp:332-362 | stores that spare the next instruction, and the one after it unless fetch is held up before it, satisfy the hypothesis for every predictor |
| StaleFetch.TwoAheadIsTooClose | src/stages.cpp:304-330 | a store two instructions ahead defeats the refinement of the ISA: the pipeline halts on an ecall the program has overwritten, and the ISA never halts |
| StaleFetch.TwoAheadIsStale | src/stages.cpp:304-330 | that program violates the hypothesis in either form |
| StaleFetch.OneAheadIsTooClose | src/stages.cpp:304-330 | a store into the next instruction is fetched past in every mode: at some moment the latches leave the trace |
| FetchWindow.NoStaleFetchIsFresh | src/stages.cpp:304-330 | under the first form of the hypothesis, every fetch of an entry of the trace gets its word, whatever is predicted |
| FetchWindow.FetchedFromCut | src/stages.cpp:336-358 | given the entries EX redirects behind, the entry a cycle fetches comes from memory as it stands one entry before it if fetch was held up, and two otherwise, as the trace determines |
| FetchWindow.PathPreserved | src/stages.cpp:319-328 | in every cycle, which entries in IF/ID and ID/EX are mispredicted, and why ID/EX is empty, is determined by the set of entries whose predictions are wrong |
| FetchWindow.ConfiguredPredictsAs | src/stages.cpp:319-328 | for the simulator's predictor that set is determined by the trace, the mode and the table |
| ExactFetch.FollowsIffFreshBehind | src/stages.cpp:332-362 | under any predictor whose wrong predictions are a given set of entries, the latches follow the trace at every moment of a run if and only if the trace is fetched fresh for that set |
| EveryPredictor.EveryRedirectIsMade | src/stages.cpp:319-328 | every set of entries with all jumps away in it and nothing but transfers that can be predicted wrong is the set of wrong predictions of some predictor |
| EveryPredictor.AllFollowIffNoStaleFetch | src/stages.cpp:332-362 | the latches follow the trace at every moment of every run under every predictor if and only if no store is fetched past, neither by a predictor that is always right nor by one that is always wrong |
| ExactFetch.FollowsIffFresh | src/stages.cpp:332-362 | in each mode and from any table, the latches follow the trace at every moment of a run if and only if each instruction stands in memory, one or two entries ahead, where fetch finds it |
| ExactFetch.NoStaleFetchMeansFresh | src/stages.cpp:332-362 | the form of the hypothesis for every predictor implies the exact one |
| StateDump.NormalizeMemoryRanges | src/state_dump.cpp:13-68 | fails exactly when a range exceeds memory; otherwise the result covers exactly the requested bytes (without a request, exactly those in logged ranges), ascends, and has a gap between any two ranges |
| StateDump.MarkRange | src/state_dump.cpp:32-44 | marks exactly the bytes of a range that fits, and nothing otherwise |
| StateDump.CollectRuns | src/state_dump.cpp:47-67 | the runs are in normal form and cover exactly the marked bytes |
| StateDump.NormalFormIsUnique | src/state_dump.cpp:47-67 | one set of bytes has only one normal form |
| StateDump.DumpIsCanonical | src/state_dump.cpp:13-68 | two non-empty requests for the same bytes are dumped identically |
| StateDump.NormalisingAgain | src/state_dump.cpp:18-45 | normalising a result again gives it back exactly when it is not empty or the log asks for nothing |
| StateDump.DefaultDumpIsExact | src/state_dump.cpp:18-30 | after any run from a fresh log, also one that throws, a dump without a request succeeds and names exactly the bytes in logged ranges, every byte the run has changed among them |
| Words.ReadAfterWrite | src/cpu.cpp:65-85 | a register reads as last written, and x0 as zero |
| Cpu.Cpu.constructor | src/cpu.cpp:33-34 | a new CPU has zeros in every register, in the program counter, the statistics and memory, an empty log and a table that predicts no branch taken |
| Cpu.Cpu.Reset | src/cpu.cpp:36-43 | the same again, except for memory and mode, which stay |
| CpuState.ResetClears | src/cpu.cpp:36-43 | the reset state field by field: registers, pc, statistics and log are zero or empty, every counter is 1 and no branch is predicted taken |
| Cpu.Cpu.ReadRegister | src/cpu.cpp:65-74 | the value of the register, zero for x0 |
| Cpu.Cpu.WriteRegister | src/cpu.cpp:76-85 | changes that register and nothing else, and nothing at all for x0 |
| Cpu.Cpu.ValidateMemoryAccess | src/cpu.cpp:207-216 | the overflow-free check passes exactly the accesses that end within memory |
| Cpu.Cpu.ReadU8 | src/cpu.cpp:87-90 | the byte, or a failed bounds check |
| Cpu.Cpu.ReadU16 | src/cpu.cpp:92-97 | the half word, or a failed bounds check |
| Cpu.Cpu.ReadU32 | src/cpu.cpp:99-107 | the word, or a failed bounds check |
| Cpu.Cpu.WriteU8 | src/cpu.cpp:109-113 | stores and logs the byte, or fails and changes nothing |
| Cpu.Cpu.WriteU16 | src/cpu.cpp:115-121 | stores and logs the half word, or fails and changes nothing |
| Cpu.Cpu.WriteU32 | src/cpu.cpp:123-131 | stores and logs the word, or fails and changes nothing |
| Cpu.Cpu.LoadProgram | src/cpu.cpp:133-144 | puts the image, byte for byte, at its address and nothing anywhere else, moves the program counter there and clears halt and log; an empty image changes nothing, one that does not fit is refused |
| Cpu.Cpu.PredictBranch | src/cpu.cpp:178-181 | predicts in the configured mode |
| Cpu.Cpu.UpdateBranchPredictor | src/cpu.cpp:183-187 | trains the table in the configured mode and changes nothing else |
| BranchPredictor.BranchPredictor.constructor | src/branch_predictor.cpp:16-18 | a new table is weakly not taken throughout |
| BranchPredictor.BranchPredictor.Reset | src/branch_predictor.cpp:20-22 | sets every counter to weakly not taken |
| BranchPredictor.BranchPredictor.PredictBranch | src/branch_predictor.cpp:24-36 | the direction the mode gives for the branch |
| BranchPredictor.BranchPredictor.Update | src/branch_predictor.cpp:38-53 | moves the one counter of the branch towards the outcome, saturating, and only in two-bit mode |
| PipelineRegisters.PipelineRegisters.Commit | include/pipeline_registers.hpp:159-164 | the next latches become the current ones |
| PipelineRegisters.PipelineRegisters.ClearNext | include/pipeline_registers.hpp:166-171 | empties the next latches and keeps the current ones |
| PipelineRegisters.PipelineRegisters.ClearAll | include/pipeline_registers.hpp:173-179 | empties all latches |
| PipelineRegisters.EmptyLatchesHoldNothing | include/pipeline_registers.hpp:159-179 | a cleared latch is not valid, controls nothing and holds zero in every field |
| Forwarding.ResolveForwarding | src/forwarding_unit.cpp:51-86 | overwriting the operands producer by producer gives each operand its youngest producer's value |
| Hazard.GetSourceRegisters | src/hazard_unit.cpp:18-82 | marks what the class of the instruction reads, x0 excepted, which `OperandUse.OperandUseIsExact` shows to be what matters |
| Hazard.DetectRawHazard | src/hazard_unit.cpp:84-108 | stalls exactly when a valid instruction in IF/ID reads what a load in ID/EX writes |
| PipelineMachine.StageWB | src/stages.cpp:147-162 | updates registers, halt flag and retired count as the WB function says |
| PipelineMachine.LoadFrom | src/stages.cpp:101-123 | the value of a load at each width, or a failed bounds check |
| PipelineMachine.StoreTo | src/stages.cpp:125-143 | stores and logs at each width, or fails and changes nothing |
| PipelineMachine.StageMEM | src/stages.cpp:164-190 | accesses memory and fills the next MEM/WB, or fails before either |
| PipelineMachine.LearnBranch | src/stages.cpp:232-236 | counts the branch and its misprediction, trains the table with it, and changes nothing else |
| PipelineMachine.StageEX | src/stages.cpp:192-253 | fills the next EX/MEM, trains, counts and redirects as the EX functions say |
| PipelineMachine.StageID | src/stages.cpp:255-302 | fills the next ID/EX, with a bubble on flush, stall, empty latch or undecodable word, and stops fetch on a halt |
| PipelineMachine.StageIF | src/stages.cpp:304-330 | fills the next IF/ID with the predicted path and moves the program counter along it |
| PipelineMachine.RunPipelineCycle | src/stages.cpp:332-362 | the whole new state, CPU and latches, is the cycle function's, also when MEM throws |
| Driver.Simulate | main.cpp:418-429 | the loop computes a run of the cycle function; it never exceeds the budget, the clock counts its cycles, and it ends at a halt, at the retire count, with the budget spent or at a throw, and not before |
| Driver.BudgetIsSpent | main.cpp:418-421 | from zeroed statistics, a simulation that ends well but neither halted nor at its retire count has taken exactly the budget, and none takes more |
| Driver.ProgramStartsCleared | main.cpp:411-413 | the first state of a program, field by field: zero registers, the image byte for byte in zeroed memory, an empty log |
| Driver.BudgetSuffices | main.cpp:418-429 | with 2L + 3 cycles to spend, a program that halts with its L-th entry is simulated to its end |
| Driver.RetireTargetIsExact | main.cpp:418-421 | a retire count stops the loop with exactly so many instructions; the registers are the ISA's after just those, memory and log are too or are one entry ahead |
| Driver.RunProgram | main.cpp:411-429 | from an image to its outcome: a program that does not fit is refused, any other that halts within the budget, as the machine that executes what is fetched, ends in that machine's state after the exact number of cycles, and in the ISA's if it is fetched fresh |

## Left out

- Runs.RunRefinesIsa: need not hold of programs that are fetched stale, as `StaleFetch.TwoAheadIsTooClose` shows, for which `AsFetched.EveryRunRefines` says what holds instead. The hypothesis is exact for the latches following the trace. Registers, memory and log can agree with the ISA's without it: a stale nop where a store has put `addi x0, x0, 1` changes none of them.
- Instruction.DecodeInstruction: proofs use the function from words to instructions; `Instruction.Decode` is its step-by-step form, with one method for each of the five larger opcodes where the source has one switch.
- PipelineMachine.RunPipelineCycle: written as two methods, before and after the hazard check, where the source has one function body.
- StateDump.MarkRange: range fields are unbounded naturals, of which 32-bit fields hold some. Its 32-bit counter would wrap around in a memory of the size of the address space, which main.cpp:233 excludes.
- Register numbers of 32 and above: `validate_register_index` can only fail for callers outside the pipeline, because the decoder extracts five bits; register numbers are five-bit values here.
- Overflow of the 64-bit statistics: counters are natural numbers.
- The ratios cpi, ipc and branch_prediction_accuracy: floating-point quotients of counters about which the exact facts are proved.
- Cycles run after the CPU has halted: the driver stops there.
- Setters used only by tests and tools (mutable_memory, mutable_config, advance_pc): they add no behaviour to a run.
- Command-line parsing, usage text, exit codes and expectation checks in main.cpp, loading of image files, pipeline trace printing, and the hexadecimal and JSON text of dumps, including the rows of sixteen bytes: input, output and formatting.
- The names of instruction kinds and predictor types: string tables.
- The Spike adapter, shell scripts, linker scripts and the Makefile: external tools.
