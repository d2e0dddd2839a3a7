/** A core built from a configuration, loaded with a program and run: what the theorems about runs of the
    model say of the object. */
module ProgramRun {
  import opened Words
  import opened Decoder
  import B = ByteMemory
  import opened Interpreter
  import opened IsaValues
  import opened Pipeline
  import opened Refinement
  import H = Hierarchy
  import CacheCost
  import Waiting
  import opened Predictor
  import opened Machine
  import opened CommitRefinement
  import opened Progress
  import opened CycleLaw
  import opened CycleCount
  import opened HaltTail
  import opened HaltMemory
  import Replay
  import opened MemoryObjects
  import opened StageObjects
  import opened CoreParts
  import opened CoreObject

  // ---- What is true of a run ----

  /** The core stopped where the interpreter stops, in f. */
  predicate StopsIn(prog: B.Bytes, f: Arch, s: Pipe) {
    && s.halt == Stopped(f.pc, Fetch(prog, f.pc), InstructionAt(prog, f.pc).op) && s.regs == f.regs
    && (s.mem == f.mem || s.mem == Exec(prog, Beyond(prog, f)).mem)
    && (!IsStore(InstructionAt(prog, Add(f.pc, 4)).op) ==> s.mem == f.mem)
  }

  /** A pipeline that has retired `trace` follows the interpreter. */
  ghost predicate Follows(prog: B.Bytes, a: Arch, trace: seq<Commit>, s: Pipe) {
    var k := |trace|;
    && trace == Trace(prog, a, k)
    && (s.halt.Running? ==> forall j | 0 <= j < k :: !Halted(prog, State(prog, a, j)))
    && (s.halt.Stopped? ==> k > 0 && HaltsAt(prog, a, k - 1) && StopsIn(prog, State(prog, a, k - 1), s))
  }

  lemma RunFollows(prog: B.Bytes, a: Arch, m: Machine, n: nat)
    requires Starts(a, m) && (m.bp.Some? ==> AlignedRun(prog, a))
    ensures Follows(prog, a, CommitTrace(prog, m, n), Ticks(prog, m, n).pipe)
  {
    hide WellFormed, CommitTrace, Ticks, Trace, State, Halted, AlignedRun, HaltsAt, OneStoreApart, InstructionAt,
         Exec, IsStore;
    CommitsRefine(prog, a, m, n);
    if Ticks(prog, m, n).pipe.halt.Stopped? {
      HaltPrecision(prog, a, m, n);
      FinalMemory(prog, a, m, n);
    }
  }

  /** With single-cycle fetch: the cycle count and data memory, exactly. */
  ghost predicate Exactly(prog: B.Bytes, a: Arch, m: Machine, s: Pipe, k: nat)
    requires WellFormed(m) && CacheCost.Quiet(m.dport)
  {
    var b := Beyond(prog, State(prog, a, k));
    && Replay.TraceLaw(prog, a, m.bp, m.dport, s, k)
    && s.mem == MemoryFrom(prog, State(prog, a, k), MemCycles(prog, b, DataAt(prog, a, m.dport, k)) == 1)
  }

  lemma RunIsExact(prog: B.Bytes, a: Arch, m: Machine, n: nat)
    requires Starts(a, m) && (m.bp.Some? ==> AlignedRun(prog, a)) && IdealFetch(m.iport) && CacheCost.Quiet(m.dport)
    requires Ticks(prog, m, n).pipe.halt.Stopped?
    ensures |CommitTrace(prog, m, n)| > 0
    ensures Exactly(prog, a, m, Ticks(prog, m, n).pipe, |CommitTrace(prog, m, n)| - 1)
  {
    hide CommitTrace, Ticks, State, AlignedRun, HaltsAt, Replay.TraceLaw, MemoryFrom, MemCycles, DataAt, Beyond,
         H.Shape;
    hide CacheCost.Quiet, IdealFetch, TablesShape;
    Replay.CyclesOfTrace(prog, a, m, n);
    EscapingStore(prog, a, m, n);
  }

  lemma {:induction false} StoppedStays(prog: B.Bytes, m: Machine, i: nat, j: nat)
    requires WellFormed(m) && i <= j && Ticks(prog, m, i).pipe.halt.Stopped?
    ensures Ticks(prog, m, j).pipe.halt.Stopped?
    decreases j
  {
    hide WellFormed, Ticks, MachineTick;
    if i < j {
      StoppedStays(prog, m, i, j - 1);
      TicksStep(prog, m, j);
      StaysStopped(prog, Ticks(prog, m, j - 1));
    }
  }

  /** A core that is still running after c cycles is younger than the bound for every halting program. */
  lemma RunningIsYoung(prog: B.Bytes, a: Arch, m: Machine, n: nat, j: nat)
    requires Starts(a, m) && (m.bp.Some? ==> AlignedRun(prog, a)) && HaltsAt(prog, a, j)
    requires Ticks(prog, m, n).pipe.halt.Running?
    ensures Ticks(prog, m, n).pipe.cycles < (j + 1) * Gap(m)
  {
    hide WellFormed, Ticks, Gap, State, Halted, AlignedRun, HaltsAt, CommitTrace, Trace, Inv, TablesOk;
    RunHalts(prog, a, m, j);
    RunHolds(prog, a, m, n);
    if n >= (j + 1) * Gap(m) { StoppedStays(prog, m, (j + 1) * Gap(m), n); }
  }

  lemma RunIsClosed(prog: B.Bytes, a: Arch, m: Machine, n: nat)
    requires Starts(a, m) && IdealFetch(m.iport) && m.dport.Flat? && CacheCost.Quiet(m.dport) && m.bp.None?
    requires Ticks(prog, m, n).pipe.halt.Stopped?
    ensures |CommitTrace(prog, m, n)| > 0
    ensures ClosedLaw(prog, a, m.dport.latency, Ticks(prog, m, n).pipe, |CommitTrace(prog, m, n)| - 1)
  {
    hide CommitTrace, Ticks, ClosedLaw, HaltsAt, H.Shape, CacheCost.Quiet, IdealFetch, TablesShape, AlignedRun;
    CyclesInClosedForm(prog, a, m, n);
  }

  // ---- The program in memory ----

  lemma WordsApart(base: Word, j: nat, k: nat)
    requires j < k < 0x4000_0000
    ensures 4 <= (WordAt(base, j) - WordAt(base, k)) % 0x1_0000_0000 <= 0xffff_fffc
  {
  }

  /** Every word of a loaded program is fetched from its place, as long as the program fits the address
      space, also where it wraps around. */
  lemma {:induction false} LoadedFetches(m: B.Bytes, base: Word, words: seq<Word>, k: nat)
    requires k < |words| <= 0x4000_0000
    ensures ToWord(Fetch(Loaded(m, base, words), WordAt(base, k))) == words[k]
  {
    hide Fetch, B.StoreWord, B.LoadWord, WordAt;
    var last := |words| - 1;
    var before := Loaded(m, base, words[..last]);
    FetchedWord(Loaded(m, base, words), WordAt(base, k));
    if k == last {
      B.StoreThenLoadWord(before, WordAt(base, last), words[last]);
    } else {
      LoadedFetches(m, base, words[..last], k);
      FetchedWord(before, WordAt(base, k));
      WordsApart(base, k, last);
      B.StoreWordApart(before, WordAt(base, last), words[last], WordAt(base, k));
    }
  }

  // ---- The object ----

  /** What a halted core reports. */
  ghost predicate Reports(prog: B.Bytes, f: Arch, c: Core)
    reads c`haltPc, c`haltRaw, c`haltReason
  {
    && c.haltPc == f.pc && c.haltRaw == Fetch(prog, f.pc)
    && c.haltReason == if InstructionAt(prog, f.pc).op.EBREAK? then Ebreak else Illegal
  }

  lemma HaltReported(prog: B.Bytes, f: Arch, c: Core, s: Pipe)
    requires c.halted && c.HaltModel() == s.halt && StopsIn(prog, f, s) && Halted(prog, f)
    ensures Reports(prog, f, c)
  {
    hide Fetch, Decode, Exec, IsStore, Beyond;
  }

  /** A halted core, once its trace is known. */
  lemma ReportsAt(prog: B.Bytes, a: Arch, c: Core)
    requires c.Valid() && c.halted && c.PipeModel().halt == c.HaltModel() && Follows(prog, a, c.trace, c.PipeModel())
    ensures |c.trace| > 0 && Reports(prog, State(prog, a, |c.trace| - 1), c)
  {
    hide Core.Valid, Trace, State, Halted, StopsIn, Reports, Core.PipeModel;
    HaltReported(prog, State(prog, a, |c.trace| - 1), c, c.PipeModel());
  }

  /** The model of a core as configured, at its start. */
  ghost predicate Configured(cfg: SimConfig, a: Arch, m: Machine) {
    Starts(a, m) && cfg.Built(m.iport, m.dport, m.bp)
  }

  lemma ConfiguredFacts(cfg: SimConfig, a: Arch, m: Machine)
    requires Configured(cfg, a, m)
    ensures CacheCost.Quiet(m.dport) && m.bp.Some? == cfg.bpred.Some? && Gap(m) == cfg.Gap()
    ensures cfg.icache.None? ==> m.iport == H.Flat(AtLeastOne(cfg.imemLatency), false, 0)
    ensures cfg.dcache.None? ==> m.dport == H.Flat(AtLeastOne(cfg.dmemLatency), false, 0)
  {
    hide CacheAs, TablesAs, LongestWait, Starts;
    PortBounds(m.iport, cfg.imemLatency, cfg.icache, cfg.icachePrefetch, cfg.icachePrefetchDegree);
    PortBounds(m.dport, cfg.dmemLatency, cfg.dcache, false, 1);
  }

  /** What holds of the model after n ticks, `trace` being what they retired. */
  ghost predicate Outcome(cfg: SimConfig, prog: B.Bytes, a: Arch, m: Machine, trace: seq<Commit>, s: Pipe,
                          maxCycles: nat)
    requires WellFormed(m) && CacheCost.Quiet(m.dport)
  {
    var k := |trace|;
    && Follows(prog, a, trace, s)
    && (s.halt.Stopped? ==> k > 0)
    && (s.cycles >= maxCycles ==>
          forall j: nat | HaltsAt(prog, a, j) && maxCycles >= (j + 1) * cfg.Gap() :: s.halt.Stopped?)
    && (s.halt.Stopped? && cfg.SingleCycleFetch() ==> Exactly(prog, a, m, s, k - 1))
    && (s.halt.Stopped? && cfg.SingleCycleFetch() && cfg.dcache.None? && cfg.bpred.None? ==>
          ClosedLaw(prog, a, AtLeastOne(cfg.dmemLatency), s, k - 1))
  }

  lemma Concludes(cfg: SimConfig, prog: B.Bytes, a: Arch, m: Machine, n: nat, maxCycles: nat)
    requires Configured(cfg, a, m) && (cfg.bpred.Some? ==> AlignedRun(prog, a))
    ensures Outcome(cfg, prog, a, m, CommitTrace(prog, m, n), Ticks(prog, m, n).pipe, maxCycles)
  {
    hide CommitTrace, Ticks, State, AlignedRun, HaltsAt, Trace, Halted, H.Shape, CacheCost.Quiet, TablesShape,
         Exactly, ClosedLaw, StopsIn, SimConfig.Gap, Gap, Starts;
    StartsWell(a, m);
    ConfiguredFacts(cfg, a, m);
    RunFollows(prog, a, m, n);
    var s := Ticks(prog, m, n).pipe;
    if s.halt.Stopped? {
      if cfg.SingleCycleFetch() { RunIsExact(prog, a, m, n); }
      if cfg.SingleCycleFetch() && cfg.dcache.None? && cfg.bpred.None? { RunIsClosed(prog, a, m, n); }
    } else {
      forall j: nat | HaltsAt(prog, a, j) && s.cycles >= maxCycles >= (j + 1) * cfg.Gap() ensures false {
        RunningIsYoung(prog, a, m, n, j);
      }
    }
  }

  /** Everything at once.  m is the model of the constructed core: a cold, quiet data side behind the
      configured memories.  The core retires the interpreter's trace; if the interpreter halts and the
      cycles allowed reach the bound, the core halts; a halted core reports the interpreter's halting
      instruction, has its registers and its memory but for the one instruction beyond; and with
      single-cycle fetch the cycle count and the memory are exact. */
  method RunProgram(cfg: SimConfig, words: seq<Word>, maxCycles: nat) returns (c: Core, ghost m: Machine)
    requires cfg.Ok()
    requires cfg.bpred.Some? ==> AlignedRun(Loaded(map[], cfg.ramBase, words), Boot(cfg.ramBase))
    ensures c.Valid() && Configured(cfg, Boot(cfg.ramBase), m) && WellFormed(m)
    ensures (c.halted || c.stats.cycles >= maxCycles) && c.stats.cycles <= maxCycles
    ensures c.PipeModel().halt.Stopped? == c.halted
    ensures var prog := Loaded(map[], cfg.ramBase, words); var a := Boot(cfg.ramBase);
      && Outcome(cfg, prog, a, m, c.trace, c.PipeModel(), maxCycles)
      && (c.halted ==> |c.trace| > 0 && Reports(prog, State(prog, a, |c.trace| - 1), c))
  {
    hide Port.Valid, Port.Model, Port.Data, H.Shape, BpModel, BpValid, Core.Wired, RegFile.Valid, RegFile.Model,
         TablesShape, B.StoreWord, Core.Sound, Core.Valid, Core.Model, Core.PipeModel, Starts, Loaded, CommitTrace,
         Ticks, Trace, State, AlignedRun, HaltsAt, SimConfig.Ok, SimConfig.Gap, Memories.As, Hardware.Empty,
         Core.NoneIn, Core.HaltModel, Halted, StopsIn, Exactly, Reports, ClosedLaw, CacheCost.Quiet, Boot,
         Waiting.MaxCost, WellFormed;
    var prog, a := Loaded(map[], cfg.ramBase, words), Boot(cfg.ramBase);
    c := new Core(cfg);
    c.EmptyStarts(cfg);
    c.BackApartValid();
    m := c.Model();
    StartsWell(a, m);
    c.LoadProgram(words);
    ghost var n := c.Run(maxCycles);
    assert c.trace == CommitTrace(prog, m, n);
    c.Registers();
    Concludes(cfg, prog, a, m, n, maxCycles);
    if c.halted { ReportsAt(prog, a, c); }
  }
}
