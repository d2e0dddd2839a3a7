# A verified model of the cpusim RV32I core

cpusim is a cycle-level simulator of a five-stage, in-order RV32I processor: fetch, decode, execute,
memory and write-back stages that evaluate into shadow latches and then latch together; a forwarding
unit and a load-use interlock; a branch target buffer with two-bit direction counters; and a memory
system in which data is always read and written at the last level while `ready()`/`tick()` model time,
through a flat memory or through write-back caches with tree pseudo-LRU replacement and a next-line
prefetcher.  This project models that program in Dafny and proves what it is for:

* the retired instructions are the instruction set's, whatever the timing (commit refinement, precise
  halting, operand correctness, timing independence, and which store may escape behind the halting
  instruction);
* the cycle count is an exact sum over the program's trace, and retirement never stalls for longer than
  an explicit bound;
* what a cache access costs at any level of a tower of caches, what prefetching can and cannot change,
  and what the counters add up to;
* what tree pseudo-LRU guarantees about the ways it evicts, and what a set with empty ways keeps;
* how far the prefetch engine gets when it is left alone;
* what makes it enough for EX to compare predicted and actual directions;
* the decoder is inverse to an encoder, and immediates, comparisons, logical operations, shifts, loads and
  stores mean what they should as numbers and as single bits.

## How it is organised

Values and specification:

* `Words`, `Bits` - 32-bit words with explicit wrap-around, shifts and masks.
* `Numbers`, `IsaValues` - what the word operations and the interpreter's operations are as numbers and bits.
* `Decoder.dfy` (`Encoding`, `Decoder`), `Codec` - field extraction, the decoder, and an encoder for every
  format.
* `ByteMemory`, `Alu` - little-endian bytes; the ALU and the branch comparator.
* `Interpreter` - one instruction at a time, from the RISC-V Unprivileged ISA, Volume I, sections 2.2 to
  2.8.  FENCE and ECALL do nothing; EBREAK and illegal encodings stop it.
* `Pipeline`, `Hierarchy`, `Predictor`, `Machine` - one cycle of the latches, of the memory hierarchy's
  timing and of the predictor, as functions of the state, and the three clocked together.
* `PlruTree` - pseudo-LRU as a binary tree of direction bits.

Theorems:

* `Refinement`, `CommitRefinement` - the simulation invariant and the results about whole runs.
* `HaltTail`, `HaltMemory` - what stands behind the halting instruction, and data memory when the core stops.
* `CycleLaw`, `CycleCount`, `Replay` - the exact cycle law, and the predictor replayed over the trace.
* `ProbeCount` - what the branch probe adds up to.
* `Waiting`, `Progress` - bounded waiting and bounded progress.
* `CacheCost`, `WorkingSet`, `Capacity`, `LineCount`, `Conservation` - caches without prefetching.
* `Prefetch`, `PrefetchChain`, `PrefetchRuns`, `PrefetchCost`, `PrefetchSafety` - caches with it.

Objects, in the form of the program itself, each method proved against the functions above:

* `PlruBits` - class `TreePlru` over one array of heap bits.
* `MemoryObjects` - classes `FlatMem`, `Cache` and `Port` (the abstract memory interface).
* `StageObjects` - classes `Latch`, `RegFile`, `BranchPredictor` and the seven stages.
* `CoreParts` - the configuration, and the parts of a core wired together.
* `CoreObject` - class `Core`: one `Tick` is one `MachineTick` of its model, and `Run` is a run of it.
* `ProgramRun` - a core built, loaded and run: the results about runs, carried to the object.

Many proofs begin with a `hide` statement that names the definitions they do not need; it keeps each proof
obligation small and has no other meaning.

## Assumptions

* With the predictor on, architectural pcs are 4-aligned.  The predictor drops the low two bits of a pc and
  EX compares directions only; `Predictor.AliasedPrediction` shows what happens within a word.  Without a
  predictor nothing is assumed about alignment.
* A memory address outside the configured range is an assertion failure in the program
  (`src/memory/flat_mem.cpp:11-15`).  Here memories are total and a byte never written reads 0, so that
  wrong-path fetches and loads have a meaning; the results for programs that stay in range are unchanged.
* Instruction and data memory are separate objects and the core never stores to instruction memory while it
  runs, as in `src/sim/core.cpp:9-41`.
* The predictor and the two ports may be in any well-formed state when a run starts, except where a theorem
  says `Quiet` (no request in progress, no prefetching) or a fresh cache.
* Cache sizes and table sizes are powers of two, as the constructors assert or document, and the
  offset and index bits of a cache fit a 32-bit address.
* The exact cycle law is for single-cycle instruction memory.  A fetch over a slower instruction memory is
  abandoned on a redirect (`src/uarch/pipeline/fetch.cpp:47-50`), so there only the bounds of `Progress` and
  the timing-independent results are claimed.

Where the code and its documentation differ, the code is followed: `docs/memory-model.md:92-96` gives a
miss the cost of one `backing_latency`, which is exact when the backing level is a flat memory;
`CacheCost.HeldRequest` gives the cost for any backing level.  The comment in
`include/cpusim/memory/cache.h:45-46` says prefetching never installs into a dirty victim; the check is made
when the prefetch is queued, and `PrefetchSafety` says exactly when a store in between defeats it.

## Model

| member | source | states |
|---|---|---|
| CommitRefinement.CommitsRefine | src/sim/core.cpp:61-123 | For every program, initial state, latencies, caches and predictor, the entries retired by any number of ticks are a prefix of the interpreter's trace, up to and including its first EBREAK or illegal instruction and never past it |
| CommitRefinement.HaltPrecision | src/sim/core.cpp:81-98 | A stopped core's halt pc, raw word and reason are those of the interpreter's first halting instruction; registers are equal, and memory but for at most one store |
| CommitRefinement.TimingIndependence | src/sim/core.cpp:9-41 | Two cores with the same program and start, whatever their latencies, caches, prefetching and predictors, retire traces of which one is a prefix of the other; equal, with equal registers and halt record, if both stop |
| CommitRefinement.OperandCorrectness | src/uarch/pipeline/forward.cpp:9-26 | In every reachable state, through stalls of any length, the operands EX resolves are the register values after all older instructions |
| HaltTail.PredictorSoundness | src/uarch/pipeline/execute.cpp:77-92 | In every reachable running state, up to and including the one with the halting instruction in WB, a taken prediction at an aligned pc names the target of the conditional branch or JAL at that pc |
| CommitRefinement.TickRefines | src/sim/core.cpp:61-123 | One tick of a core that satisfies the invariant retires the interpreter's next commit or nothing, and keeps the invariant or stops exactly where the interpreter stops |
| Refinement.StepRefines | src/sim/core.cpp:61-123 | The same for any answers of the memories and any sound prediction; final memory can differ only if a store was in MEM and was served in that cycle |
| Refinement.FlowRedirect | src/uarch/pipeline/execute.cpp:77-84 | EX redirects only to the interpreter's next pc, and when it does not redirect the path fetch followed is the interpreter's |
| Refinement.FreshOperand | src/uarch/pipeline/forward.cpp:17-26 | With three producers in flight, the value resolve selects is the register's value after all three |
| Refinement.CapturedOperand | src/sim/core.cpp:125-139 | Writing the resolved operands back in a stall cycle keeps them when the oldest producer drains |
| Refinement.InterlockHolds | src/uarch/hazard.cpp:17-41 | Without a load-use stall no load leaving EX produces a register field of the word leaving ID |
| Refinement.ValueMatches | src/uarch/alu.cpp:5-49 | ALU selection and execution give each instruction its ISA value, and memory operations their effective address |
| Refinement.NextMatches | src/uarch/alu.cpp:51-64 | Branch comparison and target selection give the ISA's next pc |
| Refinement.CommitMatches | src/uarch/pipeline/mem_access.cpp:50-110 | What MEM passes to WB is the interpreter's commit: value, sign extension, store address and data |
| Refinement.MemoryMatches | src/uarch/pipeline/mem_access.cpp:84-102 | A store in MEM changes data memory as the interpreter does |
| HaltTail.TailHolds | src/uarch/pipeline/forward.cpp:17-26 | In every reachable running state what stands behind a halting instruction is the next word, with the operands that forwarding delivers, including the ALU result an illegal word gives its rd |
| HaltMemory.FinalMemory | src/sim/core.cpp:85-122 | When the core stops, on EBREAK or on an illegal word, memory is the interpreter's or that of executing one instruction more; the interpreter's if that instruction is no store |
| HaltMemory.EscapingStore | src/uarch/pipeline/mem_access.cpp:42-102 | With single-cycle fetch and any prefetch-free data hierarchy, for both halting opcodes: the instruction beyond the halting one takes effect if and only if its access costs one cycle in the hierarchy the trace has left; final memory is the interpreter's if and only if it is not in time or changes nothing |
| HaltMemory.MemoryCanDiffer | src/sim/core.cpp:85-122 | A concrete program whose store behind EBREAK escapes |
| Replay.CyclesOfTrace | src/sim/core.cpp:72-122 | With single-cycle fetch, any prefetch-free data hierarchy and any predictor: cycles = retired + 4 + load-use pairs + 2 x mispredicted instructions + data stalls, all on the interpreter's trace, the mispredictions found by replaying the predictor over it; the mispredict counter is that count or one more |
| Replay.ReplayHolds | src/uarch/pipeline/fetch.cpp:24-42 | In every reachable running state the tables, and the directions carried by IF/ID and ID/EX and already used in EX, are those of the replay |
| CycleCount.ExactCycles | src/sim/core.cpp:72-122 | The same sum over the trace and the directions the run predicted |
| CycleCount.CyclesInClosedForm | src/sim/core.cpp:72-122 | Without predictor and over data latency L: cycles = retired + 4 + load-use pairs + 2 x taken control transfers + (L - 1) x memory operations |
| CycleCount.TimeHolds | src/sim/core.cpp:61-123 | In every reachable state each stage holds its instruction in the cycle slot the trace assigns to it |
| CycleLaw.ExAgrees | src/uarch/hazard.cpp:17-41 | The interlock fires exactly on the load-use pairs of the trace, and never together with a redirect |
| CycleLaw.PortFlows | src/uarch/pipeline/mem_access.cpp:42-48 | A memory instruction spends in MEM exactly the cost of its access, and leaves the hierarchy in its access state |
| ProbeCount.ProbesSum | src/uarch/pipeline/execute.cpp:108-125 | For any timing: at halt the correct and mispredicted outcomes sum to the branches and jumps that retired, plus at most two younger ones that resolved behind the halting instruction |
| ProbeCount.ProbeHolds | src/uarch/pipeline/execute.cpp:108-125 | While the core runs, until a halting instruction is in WB, the sum is exactly the branches and jumps of the trace that have left EX |
| Progress.BoundedProgress | src/sim/core.cpp:100-122 | From any well-formed state, k retirements take at most k x (3 + largest fetch cost + largest data cost) ticks, or the core has stopped |
| Progress.RunHalts | src/sim/core.cpp:141-144 | If the interpreter halts at instruction n, the core has stopped after (n + 1) such gaps |
| Progress.StallFreezesFetch | src/sim/core.cpp:100-111 | Through a MEM stall of any length fetch is asked for the same word, the instruction memory keeps its answer without advancing, and the predictor and its prediction stay |
| Progress.FetchLooksUpPc | src/uarch/pipeline/fetch.cpp:11-20 | A fetch that finds the instruction cache idle looks up its own pc, and hits exactly if the pc's line is there |
| Progress.RankFalls | src/uarch/pipeline/fetch.cpp:11-58 | Every tick that retires nothing strictly lowers an explicit rank over latches and both ports, redirects and abandoned fetches included |
| Waiting.RoundLowersLeft | src/memory/cache.cpp:136-239 | Every unserved ready/tick round strictly lowers the remaining wait, even when the caller changes its address |
| CacheCost.HeldRequest | src/memory/cache.cpp:136-239 | At any level of a tower of caches over flat memory a held request is served in exactly the cost of its case (hit, clean miss, dirty miss, composed with the backing level's costs) and leaves the level quiet |
| WorkingSet.WorkingSetGuarantee | src/memory/cache.cpp:57-83 | From any warm state, while the accesses to a set touch at most log2(ways) + 1 lines, each of those lines misses at most once |
| Capacity.MissTakesEmpty | src/memory/cache.cpp:67-72 | Prefetching or not, a miss no prefetch covers takes the lowest empty way of its set |
| Capacity.PrefetchTakesEmpty | src/memory/cache.cpp:85-99 | A queued prefetch reserves the lowest empty way of its set |
| Capacity.FillsEmptyWay | src/memory/cache.cpp:57-83 | A whole access that misses in a set with an empty way writes that line into the lowest one; every line resident anywhere before is resident after |
| Capacity.CapacityGuarantee | src/memory/cache.cpp:57-83 | From any warm state, as long as the lines touched in a set fit into the ways that were empty, each of them misses at most once |
| Capacity.ColdCapacity | src/memory/cache.cpp:57-83 | From a cold cache, while at most `ways` lines of a set are touched, a request to it hits if and only if its line was touched before |
| Capacity.LooksUp | src/memory/cache.cpp:136-159 | A ready call in phase Idle looks up its own address, prefetching or not; it is a hit, and reported as one, exactly if the line is there |
| Capacity.ReportsHit | include/cpusim/memory/cache.h:75 | After a whole access last_was_hit says whether the line was resident before it |
| WorkingSet.AccessOnSets | src/memory/cache.cpp:136-188 | A whole access changes only its own set, by one hit or one fill |
| PlruTree.Survival | src/memory/tree_plru.cpp:13-29 | After a touch of a way, the victim is not that way until log2(ways) distinct other ways have been touched |
| PlruTree.SurvivalIsTight | src/memory/tree_plru.cpp:13-29 | From any bits, log2(ways) touches of other ways suffice to make it the victim: the bound is exact |
| PlruTree.Rotation | src/memory/tree_plru.cpp:13-29 | From any tree, `ways` steps of evicting and touching take every way exactly once and restore the tree |
| PlruBits.EvictRound | src/memory/tree_plru.cpp:13-29 | On the object: `ways` calls of victim and touch on a set return every way exactly once and leave the whole bit array, all sets included, as it was |
| PlruBits.TreePlru.Victim | src/memory/tree_plru.cpp:13-18 | The root-to-leaf walk over the heap returns the tree's victim |
| PlruBits.TreePlru.Touch | src/memory/tree_plru.cpp:20-29 | The leaf-to-root loop turns the set's tree into the touched tree, leaves every other set's tree alone, and writes no bit outside the set's heap nor its unused index 0 |
| PlruBits.TreeDeterminesBits | src/memory/tree_plru.cpp:13-29 | A set's tree determines its bits, so a restored tree is a restored heap |
| PlruBits.TreeFrame | src/memory/tree_plru.cpp:13-29 | A subtree depends on the bits of its own nodes only |
| Conservation.WriteBackConservation | src/memory/cache.cpp:148-184 | Over any run without prefetching: dirty lines at the start plus transitions to dirty = write-backs issued plus dirty lines at the end |
| Conservation.FlushAddress | src/memory/cache.cpp:170-183 | From a cold cache, every address written back is the base address of a line stored to earlier |
| Hierarchy.AddrOfLine | src/memory/cache.cpp:33-48 | Rebuilding an address from the set and tag of any address gives that address's line base |
| Hierarchy.AddressFields | src/memory/cache.cpp:33-43 | Set, tag and line base of an address are quotient and remainder by the line size and the number of sets |
| Hierarchy.LineBase | src/memory/cache.cpp:33-43 | A line's base is aligned and has the set and tag of the line |
| Prefetch.CoexistAlways | src/memory/cache.cpp:85-125 | In every state reachable by any ready and tick calls: no tag twice in a set, a pending prefetch target is aligned and not resident, and a demand miss fills a way no pending prefetch reserves |
| Prefetch.Accounting | src/memory/cache.cpp:74-83 | Over every run, the useful counter is the first demand hits on prefetched lines plus the merges, and useful + useless + resident unused prefetched lines = prefetch installs + merges |
| PrefetchChain.PrefetchesAhead | src/memory/cache.cpp:85-125 | In every reachable state a pending prefetch is for one of the next `degree` lines after the line of an earlier demand access; none when prefetching is off |
| PrefetchRuns.ChainStarts | src/memory/cache.cpp:85-99 | With prefetching on and nothing pending, a hit makes the next line pending if and only if it is neither resident nor would replace a dirty line; a miss likewise, unless it takes the same way itself |
| PrefetchRuns.PendingStays | src/memory/cache.cpp:85-99 | A pending prefetch is never replaced by another, and is dropped only by a miss that takes its way |
| PrefetchRuns.ChainContinues | src/memory/cache.cpp:101-125 | A served prefetch installs its line, and the line that many bytes further is pending, one further in the chain, if and only if the chain is shorter than the degree and that line is neither resident nor would replace a dirty one |
| PrefetchRuns.PrefetchesArrive | src/memory/cache.cpp:101-125 | A pending prefetch and the n lines its chain goes on to all become resident, and nothing stays pending, within n + 1 request times of any backing level without a ready call, if the chain has at most as many lines as there are sets or puts at most log2(ways) + 1 into each |
| PrefetchRuns.HitFetchesAhead | src/memory/cache.cpp:85-125 | After one hit in an idle cache with nothing pending and a degree below the number of sets: every line after the accessed one, up to the degree or the first line that is resident or would replace a dirty one, becomes resident within as many request times, and the chain stops there |
| PrefetchRuns.ChainCanWrap | src/memory/cache.cpp:101-125 | Beyond that bound it fails: in a cache of one line an unobstructed chain of two leaves only its second line |
| PrefetchCost.PrefetchNeverLengthens | src/memory/cache.cpp:160-184 | Whatever prefetch occupies the port, an access from an idle demand phase is served in exactly its cost: H on a hit, at most D + H on a clean miss and on a merged miss, at most 2D + H with a dirty victim |
| PrefetchSafety.NeverOverwrites | src/memory/cache.cpp:89-98 | After a run in which no store has hit a reserved way, no prefetch overwrites a dirty line, and one can after the next call if and only if that call is such a store |
| PrefetchSafety.OpReserves | src/memory/cache.cpp:101-125 | Any call keeps the reserved line clean if and only if it is not a store that hits it |
| PrefetchSafety.ReadOnlyIsSafe | src/memory/cache.cpp:148-159 | Read-only use, as of the instruction cache, never stores into a reserved way |
| PrefetchSafety.PrefetchCanOverwrite | src/memory/cache.cpp:89-98 | A concrete run of the ready/tick protocol, over a flat memory of latency 2, in which a prefetch replaces a dirty line |
| Predictor.PredictSound | src/uarch/branch_predictor.cpp:33-42 | Tables that satisfy the invariant predict taken only for branches and JALs, with their own targets |
| Predictor.UpdateOk | src/uarch/branch_predictor.cpp:44-57 | Training on a branch or JAL at an aligned pc keeps the invariant for all pcs |
| Predictor.SameEntry | src/uarch/branch_predictor.cpp:20-31 | Index and tag agree for two pcs exactly when they lie in the same word |
| Predictor.AliasedPrediction | src/uarch/branch_predictor.cpp:20-42 | A pc inside the word of a trained JAL is predicted to jump to that JAL's target, whatever stands there |
| Predictor.SameCounter | src/uarch/branch_predictor.cpp:20-27 | Two pcs share a counter, or an entry, exactly when their words are equal modulo the table size |
| Predictor.TrainsOnlyItself | src/uarch/branch_predictor.cpp:44-57 | Training changes one entry and at most one counter; a pc that shares neither is predicted as before |
| Predictor.SharedCounter | src/uarch/branch_predictor.cpp:33-57 | Two equal outcomes of a branch decide the prediction of another branch with the same counter |
| Predictor.OppositesCancel | src/uarch/branch_predictor.cpp:44-49 | An outcome and its opposite restore the counter unless the first found it saturated |
| Predictor.OneOutcome | src/uarch/branch_predictor.cpp:13-57 | A fresh predictor predicts nothing taken, and one outcome of a branch sets its next prediction |
| Predictor.TwoAgree | src/uarch/branch_predictor.cpp:44-49 | Two equal outcomes decide the next prediction of a branch, and one does not overturn a saturated counter |
| Numbers.ImmediateValues | include/cpusim/isa/rv32i/encoding.h:34-75 | Each immediate is the number in its 12-, 13- or 21-bit field, less 2^12, 2^13 or 2^21 when the field's top bit is set |
| Numbers.RegNumber | include/cpusim/isa/rv32i/encoding.h:23-26 | A five-bit field names the register of that number |
| Numbers.SignedIs | src/uarch/alu.cpp:14-15 | The signed value of a word is the int32_t that converts back to it |
| IsaValues.SignedOrder | src/uarch/alu.cpp:15-61 | SLT, BLT and BGE put words with the top bit set before all others; SLTU, BLTU and BGEU compare magnitudes |
| IsaValues.LogicOps | src/uarch/alu.cpp:9-11 | AND, OR and XOR bit by bit |
| IsaValues.ShiftBits | src/uarch/alu.cpp:12-14 | SLL, SRL and SRA bit by bit: zeros come in, and copies of bit 31 for SRA; the amount is the low five bits |
| IsaValues.LoadValues | src/uarch/pipeline/mem_access.cpp:57-82 | LB and LH are the byte and half word in memory read as signed numbers, the others as unsigned |
| IsaValues.FetchedWord | src/uarch/pipeline/fetch.cpp:22-25 | The fetched bit pattern is the word in memory |
| IsaValues.PassOrStop | src/sim/core.cpp:81-93 | FENCE and ECALL go on to the next word and change nothing; EBREAK and illegal words, and only they, stop |
| Codec.DecodeEncode | src/isa/rv32i/decoder.cpp:7-151 | Decoding the encoding of any instruction whose immediate is in the numeric range of its format gives it back; the encoder is written with the literal opcodes and function codes |
| Codec.EncodeDecode | include/cpusim/isa/rv32i/encoding.h:22-75 | Encoding a decoded word gives the word back, except for FENCE, ECALL and EBREAK; every decoded instruction is in range |
| Decoder.DecodeSources | src/uarch/hazard.cpp:26-32 | The raw register fields the interlock compares cover every register an instruction reads |
| Decoder.DecodeDestination | src/isa/rv32i/decoder.cpp:14-151 | An instruction that writes no register carries rd = 0, unless it is illegal |
| ByteMemory.StoreThenLoadByte | src/memory/flat_mem.cpp:17-37 | A stored byte reads back at its own address |
| ByteMemory.StoreByteFrame | src/memory/flat_mem.cpp:35-37 | A byte store changes no other byte |
| ByteMemory.StoreHalfFrame | src/memory/flat_mem.cpp:39-43 | A half-word store changes its two bytes and no other |
| ByteMemory.LittleEndian | src/memory/flat_mem.cpp:39-51 | Half words and words are stored at consecutive bytes, the lowest first, also around the end of the address space |
| ByteMemory.StoreWordApart | src/memory/flat_mem.cpp:45-51 | A word store changes no word four or more bytes away |
| ByteMemory.StoreThenLoadWord | src/memory/flat_mem.cpp:27-51 | A stored word reads back, also where it wraps around the address space |
| ByteMemory.StoreThenLoadHalf | src/memory/flat_mem.cpp:21-43 | A stored half word reads back |
| ByteMemory.StoreWordFrame | src/memory/flat_mem.cpp:45-51 | A word store changes its four bytes and no other |
| MemoryObjects.FlatMem.Ready | src/memory/flat_mem.cpp:57-63 | The first call starts the countdown; the answer and the new state are the model's, and the bytes are untouched |
| MemoryObjects.FlatMem.Tick | src/memory/flat_mem.cpp:65-69 | One cycle of the countdown or the release, as the model |
| MemoryObjects.Cache.FindWay | src/memory/cache.cpp:57-65 | The loop returns the first way that holds the tag, or -1 |
| MemoryObjects.Cache.ChooseVictim | src/memory/cache.cpp:67-72 | The loop returns the first invalid way, else the pseudo-LRU victim: the way Capacity and WorkingSet speak of |
| MemoryObjects.Cache.InstallLine | src/memory/cache.cpp:74-83 | The line table, the replacement bits and the useless counter after an install; all other sets unchanged |
| MemoryObjects.Cache.MaybeStartPrefetch | src/memory/cache.cpp:85-99 | Queues the next line unless prefetching is off, one is pending, it is resident or its victim is dirty |
| MemoryObjects.Cache.ServicePrefetch | src/memory/cache.cpp:101-125 | Drives the backing port for a pending prefetch, installs and chains; no port call without one |
| MemoryObjects.Cache.Ready | src/memory/cache.cpp:136-188 | Hit, merge, clean miss or dirty miss, in place, as the model's transition, and whether the request is served |
| MemoryObjects.Cache.Tick | src/memory/cache.cpp:190-239 | All five phases, with the backing level's own ready and tick, as one step of the model's tower; data untouched |
| MemoryObjects.Cache.constructor | src/memory/cache.cpp:8-31 | Sizes become shift amounts; a fresh cache is idle, empty and leaves its backing level as it was |
| MemoryObjects.Log2Exact | src/memory/cache.cpp:8-13 | The halving loop finds the exponent of a power of two |
| MemoryObjects.WriteLine | src/memory/cache.cpp:50-55 | Writing one entry of the row-major table changes that way of that set only |
| MemoryObjects.Port.Ready | include/cpusim/memory/mem_interface.h:43-45 | Whatever level answers, the tower's timing takes the model's step and its bytes stay |
| MemoryObjects.Port.Tick | include/cpusim/memory/mem_interface.h:46 | The same for a tick |
| MemoryObjects.Cache.StoreWord | src/memory/cache.cpp:127-133 | A store goes to the last level and leaves all timing state alone |
| StageObjects.RegFile.Write | include/cpusim/regfile.h:24-28 | One register changes; x0 stays 0 |
| StageObjects.BranchPredictor.Update | src/uarch/branch_predictor.cpp:44-57 | Saturating counter and buffer entry, in place, as the model's tables |
| StageObjects.FetchStage.Evaluate | src/uarch/pipeline/fetch.cpp:11-42 | Bubble and held pc while not served, else the word, the prediction and the next pc |
| StageObjects.FetchStage.Commit | src/uarch/pipeline/fetch.cpp:44-58 | Port ticked; redirect over stall over advance; signals cleared |
| StageObjects.DecodeStage.Evaluate | src/uarch/pipeline/decode.cpp:11-35 | The decoded instruction with register values, or a bubble |
| StageObjects.DecodeStage.Commit | src/uarch/pipeline/decode.cpp:37-45 | Flush over stall over commit; signals cleared |
| StageObjects.ExecuteStage.Evaluate | src/uarch/pipeline/execute.cpp:28-106 | Operands, ALU, branch, redirect, training and probe fields are the model's |
| StageObjects.ExecuteStage.Commit | src/uarch/pipeline/execute.cpp:108-125 | Redirect and flush signalled, exactly one of two counters stepped, predictor trained, result latched |
| StageObjects.MemAccessStage.Evaluate | src/uarch/pipeline/mem_access.cpp:30-111 | Stall and bubble while not served; on the served cycle the access happens once |
| StageObjects.WritebackStage.Commit | src/uarch/pipeline/writeback.cpp:40-45 | The pending write reaches the register file |
| StageObjects.HazardUnit.Evaluate | src/uarch/hazard.cpp:17-33 | Stalls exactly on a load-use match of raw fields |
| CoreObject.Core.CaptureExOperands | src/sim/core.cpp:125-139 | The frozen EX entry gets its resolved operands |
| CoreObject.Core.Tick | src/sim/core.cpp:61-123 | One tick of the objects is one tick of the model: every register, both memories, predictor, counters, halt record and trace |
| CoreObject.Core.Run | src/sim/core.cpp:141-144 | The loop is a run of the model, every tick that of a running core; it ends halted or out of cycles, and never ticks once the cycles are used up |
| CoreObject.Core.LoadProgram | src/sim/core.cpp:53-59 | The words are stored at consecutive addresses of instruction memory; nothing else changes |
| ProgramRun.LoadedFetches | src/sim/core.cpp:53-59 | Every word of a loaded program that fits the address space is fetched from base + 4k |
| CoreParts.NewHardware | src/sim/core.cpp:9-41 | All parts as configured - latencies, line size, sets, ways, hit latency, prefetching and degree of each cache, the two table sizes - wired to each other, to two separate memories and to one predictor; caches cold, nothing in flight |
| CoreObject.Core.constructor | src/sim/core.cpp:9-41 | A core of such parts, valid, not halted, with an empty trace |
| ProgramRun.RunProgram | src/sim/core.cpp:9-144 | A constructed, loaded and run core retires the interpreter's trace; halts within the bound if the interpreter halts; then reports its pc, word and reason, has its registers, and its memory but for the one instruction beyond; with single-cycle fetch, cycles and memory are exact, cached data side included |

## Left out

* ELF loading, the command line, benchmarks and shell scripts: file input and output only.
* Text of the tracer and of register dumps: the trace is a sequence of records; bubble lines of its cycle format are not kept.
* Range assertions of the flat memory, and its base and size: memories are total here (see Assumptions).
* Traps for misaligned accesses, CSRs, self-modifying code, gshare, TLB: not in the program either.
* `StallSignals`, `FlushSignals`: not wired into the core.
* 64-bit overflow of the counters: they are unbounded naturals.
* The optional statistics pointer of a cache: each cache keeps its own prefetch counters, and the core's counters are in one `SimStats` object that is always present.
* Virtual dispatch of the memory, replacement and prefetch interfaces: `Port` holds one of the two memories, the replacement policy is tree pseudo-LRU and the prefetch policy is next-line, the only ones there are.
* A cycle law for slow or cached instruction memory: only the bounds of `Progress` are claimed there.
- Codec.EncodeDecode: does not recover FENCE, ECALL and EBREAK words, because the decoder discards their unused fields.
