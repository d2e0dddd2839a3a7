/** Bounded progress: the gap between two retirements is at most the largest fetch cost plus the largest
    data cost plus three cycles, whatever redirects, interlocks and stalls occur. */
module Progress {
  import opened Words
  import opened Decoder
  import opened ByteMemory
  import opened Interpreter
  import opened Pipeline
  import opened Hierarchy
  import opened Waiting
  import opened Capacity
  import opened Machine
  import opened Refinement
  import opened CommitRefinement
  import Predictor

  /** Cycles until the oldest instruction in flight, or the next one fetched, must retire. */
  function Rank(m: Machine): nat
    requires WellFormed(m)
  {
    var s := m.pipe;
    if s.memWb.valid then 1
    else if s.exMem.valid then 1 + (if AsksData(s.exMem) then Left(m.dport) else 1)
    else if s.idEx.valid then 2 + MaxCost(m.dport)
    else if s.ifId.valid then 3 + MaxCost(m.dport)
    else 3 + MaxCost(m.dport) + Left(m.iport)
  }

  function Gap(m: Machine): nat { 3 + MaxCost(m.dport) + MaxCost(m.iport) }

  lemma RankBound(m: Machine)
    requires WellFormed(m)
    ensures 0 < Rank(m) <= Gap(m)
  {
    LeftBound(m.iport);
    LeftBound(m.dport);
    hide Shape, Left, MaxCost;
  }

  /** The ports after a tick: their costs, and how much of the current wait is over. */
  lemma PortsAfter(prog: Bytes, m: Machine)
    requires WellFormed(m) && m.pipe.halt.Running?
    ensures var n := MachineTick(prog, m);
      && MaxCost(n.dport) == MaxCost(m.dport) && MaxCost(n.iport) == MaxCost(m.iport)
      && (AsksData(m.pipe.exMem) && !InputsOf(m).dataReady ==> Left(n.dport) < Left(m.dport))
      && (!Stalling(m) && !InputsOf(m).fetchReady ==> Left(n.iport) < Left(m.iport))
  {
    var s := m.pipe;
    MaxCostKept(m.iport, s.pc, false);
    MaxCostKept(FetchAsked(m), 0, false);
    MaxCostKept(m.dport, s.exMem.aluOut, IsStore(s.exMem.op));
    MaxCostKept(DataAsked(m), 0, false);
    hide Shape, MaxCost, Left, Step, Trained, IsServed, MemStalls;
    if AsksData(s.exMem) && !InputsOf(m).dataReady { RoundLowersLeft(m.dport, s.exMem.aluOut, IsStore(s.exMem.op)); }
    if !InputsOf(m).fetchReady { RoundLowersLeft(m.iport, s.pc, false); }
  }

  /** Which stages a cycle without a retirement fills. */
  lemma StagesAfter(prog: Bytes, s: Pipe, i: Inputs)
    requires s.halt.Running? && !s.memWb.valid
    ensures var t := Step(prog, s, i);
      && (s.exMem.valid && MemStalls(s.exMem, i.dataReady) ==> !t.memWb.valid && t.exMem == s.exMem)
      && (s.exMem.valid && !MemStalls(s.exMem, i.dataReady) ==> t.memWb.valid)
      && (!s.exMem.valid ==> !t.memWb.valid && t.exMem.valid == s.idEx.valid)
      && (!s.exMem.valid && !s.idEx.valid ==> t.idEx.valid == s.ifId.valid)
      && (!s.exMem.valid && !s.idEx.valid && !s.ifId.valid ==> t.ifId.valid == i.fetchReady)
  {
    FlowShape(prog, s, i, FlowStep(prog, s, i));
    if s.exMem.valid && !MemStalls(s.exMem, i.dataReady) { MemOutShape(s.exMem, s.mem, i.dataReady); }
    hide FlowStep, Operand1, Operand2, AluResult, ActuallyTaken, Target, MemStore, RegsAfterWb, Decode, Fetch,
         LoadedValue;
    hide RedirectTarget, FetchNextPc, IsMemOp;
  }

  lemma StoppedOrRunning(prog: Bytes, s: Pipe, i: Inputs)
    requires s.halt.Running? && !s.memWb.valid
    ensures Step(prog, s, i).halt.Running?
  {
    hide Operand1, Operand2, MemOut, MemStore, ExecuteOut, DecodeOut, FetchOut, Redirects, LoadUse, RegsAfterWb;
  }

  lemma RankFalls(prog: Bytes, m: Machine)
    requires WellFormed(m) && m.pipe.halt.Running? && !m.pipe.memWb.valid
    ensures var n := MachineTick(prog, m); n.pipe.halt.Running? && Rank(n) < Rank(m)
  {
    var s := m.pipe;
    var n := MachineTick(prog, m);
    TickShape(prog, m);
    PortsAfter(prog, m);
    StagesAfter(prog, s, InputsOf(m));
    StoppedOrRunning(prog, s, InputsOf(m));
    LeftBound(n.dport);
    hide Shape, MaxCost, Left, Step, MachineTick, InputsOf, IsMemOp;
  }

  // ---- Runs ----

  lemma {:induction false} TicksSplit(prog: Bytes, m: Machine, i: nat, j: nat)
    requires WellFormed(m)
    ensures Ticks(prog, m, i + j) == Ticks(prog, Ticks(prog, m, i), j)
  {
    hide WellFormed, MachineTick;
    if j > 0 {
      TicksSplit(prog, m, i, j - 1);
      TicksStep(prog, m, i + j);
      TicksStep(prog, Ticks(prog, m, i), j);
    }
  }

  /** k more instructions retired, or the core has stopped. */
  predicate Advanced(m: Machine, n: Machine, k: nat) {
    n.pipe.halt.Stopped? || (m.pipe.halt.Running? && n.pipe.instructions >= m.pipe.instructions + k)
  }

  lemma AdvanceOnce(prog: Bytes, m: Machine)
    requires WellFormed(m)
    ensures var n := MachineTick(prog, m);
      && Advanced(m, n, if m.pipe.memWb.valid then 1 else 0)
      && Gap(n) == Gap(m)
  {
    if m.pipe.halt.Running? {
      TickShape(prog, m);
      PortsAfter(prog, m);
      StepCounts(prog, m.pipe, InputsOf(m));
    }
    hide Shape, MaxCost, Left, Step, InputsOf, Trained, Stalling, FetchAsked, DataAsked;
  }

  lemma {:induction false} AdvanceAny(prog: Bytes, m: Machine, n: nat)
    requires WellFormed(m)
    ensures Advanced(m, Ticks(prog, m, n), 0) && Gap(Ticks(prog, m, n)) == Gap(m)
  {
    hide WellFormed, MachineTick, Gap;
    if n > 0 {
      AdvanceAny(prog, m, n - 1);
      TicksStep(prog, m, n);
      AdvanceOnce(prog, Ticks(prog, m, n - 1));
    }
  }

  lemma OneTick(prog: Bytes, m: Machine)
    requires WellFormed(m)
    ensures Ticks(prog, m, 1) == MachineTick(prog, m)
  {
    hide WellFormed, MachineTick;
    TicksStep(prog, m, 1);
  }

  lemma Chain(m: Machine, m1: Machine, m2: Machine, i: nat, j: nat)
    requires Advanced(m, m1, i) && Advanced(m1, m2, j)
    ensures Advanced(m, m2, i + j)
  {
  }

  lemma OnceStopped(m: Machine, n: Machine, k: nat)
    requires m.pipe.halt.Stopped? && Advanced(m, n, 0)
    ensures Advanced(m, n, k)
  {
  }

  lemma {:induction false} RetiresWithinRank(prog: Bytes, m: Machine, n: nat)
    requires WellFormed(m) && n >= Rank(m)
    ensures Advanced(m, Ticks(prog, m, n), 1)
    decreases n
  {
    hide WellFormed, MachineTick, Gap, Rank, Ticks, Advanced;
    RankBound(m);
    if m.pipe.halt.Stopped? {
      AdvanceAny(prog, m, n);
      OnceStopped(m, Ticks(prog, m, n), 1);
    } else {
      RetiresAfterTick(prog, m, n);
    }
  }

  lemma {:induction false} RetiresAfterTick(prog: Bytes, m: Machine, n: nat)
    requires WellFormed(m) && n >= Rank(m) && n > 0 && m.pipe.halt.Running?
    ensures Advanced(m, Ticks(prog, m, n), 1)
    decreases n, 0
  {
    hide WellFormed, MachineTick, Gap, Rank, Ticks, Advanced;
    var m1 := MachineTick(prog, m);
    OneTick(prog, m);
    TicksSplit(prog, m, 1, n - 1);
    AdvanceOnce(prog, m);
    if m.pipe.memWb.valid {
      AdvanceAny(prog, m1, n - 1);
      Chain(m, m1, Ticks(prog, m1, n - 1), 1, 0);
    } else {
      RankFalls(prog, m);
      RetiresWithinRank(prog, m1, n - 1);
      Chain(m, m1, Ticks(prog, m1, n - 1), 0, 1);
    }
  }

  /** Bounded progress: from any state, k retirements take at most k gaps, or the core has stopped. */
  lemma {:induction false} BoundedProgress(prog: Bytes, m: Machine, k: nat)
    requires WellFormed(m)
    ensures Advanced(m, Ticks(prog, m, k * Gap(m)), k)
  {
    hide WellFormed, MachineTick, Gap, Rank, Ticks;
    if k == 0 {
      AdvanceAny(prog, m, 0);
    } else {
      var i := (k - 1) * Gap(m);
      var r := Ticks(prog, m, i);
      BoundedProgress(prog, m, k - 1);
      AdvanceAny(prog, m, i);
      RankBound(r);
      RetiresWithinRank(prog, r, Gap(m));
      TicksSplit(prog, m, i, Gap(m));
      assert k * Gap(m) == i + Gap(m);
    }
  }

  /** k gaps. */
  function Gaps(m: Machine, k: nat): nat { k * Gap(m) }

  /** If the interpreter halts at instruction n, the core has stopped after n + 1 gaps. */
  lemma RunHalts(prog: Bytes, a: Arch, m: Machine, n: nat)
    requires Starts(a, m) && Admissible(prog, a, m) && HaltsAt(prog, a, n)
    ensures Ticks(prog, m, Gaps(m, n + 1)).pipe.halt.Stopped?
  {
    hide WellFormed, Gap, Ticks, CommitTrace, State, Halted, Admissible, Starts, Trace;
    StartsWell(a, m);
    var c := (n + 1) * Gap(m);
    StartsAtZero(a, m);
    BoundedProgress(prog, m, n + 1);
    CommitsRefine(prog, a, m, c);
  }

  lemma StartsAtZero(a: Arch, m: Machine)
    requires Starts(a, m)
    ensures m.pipe.instructions == 0
  {
    hide Shape, WellFormed;
  }

  // ---- Instruction fetch beside a MEM stall ----

  /** Asking again changes nothing. */
  lemma AskedAgain(d: Mem, addr: Word, isWrite: bool)
    requires Shape(d)
    ensures Ready(Ready(d, addr, isWrite), addr, isWrite) == Ready(d, addr, isWrite)
  {
    if d.Cached? { AskedPhase(d.g, d.c, d.backing, addr, isWrite); }
    hide CacheShape, Begin;
  }

  /** A fetch that finds the instruction cache idle looks up its own pc: it hits exactly if the line of the pc
      is there, and otherwise fetches that line. */
  lemma FetchLooksUpPc(m: Machine)
    requires WellFormed(m) && m.iport.Cached? && m.iport.c.phase.Idle?
    ensures var d := FetchAsked(m);
      && d.Cached? && d.c.curAddr == m.pipe.pc && !d.c.curIsWrite
      && d.c.phase.HitWait? == d.c.lastHit == Resident(m.iport.g, m.iport.c, m.pipe.pc)
  {
    hide CacheShape, Begin, Resident;
    LooksUp(m.iport.g, m.iport.c, m.pipe.pc, false);
  }

  /** While MEM stalls the front end is frozen: fetch is asked for the same word, the instruction memory
      neither loses nor advances its answer, and the predictor is not trained. */
  lemma {:induction false} StallFreezesFetch(prog: Bytes, m: Machine, n: nat)
    requires WellFormed(m) && m.pipe.halt.Running?
    requires forall j | 0 <= j < n :: Ticks(prog, m, j).pipe.halt.Running? && Stalling(Ticks(prog, m, j))
    ensures var r := Ticks(prog, m, n);
      && r.pipe.pc == m.pipe.pc && r.pipe.ifId == m.pipe.ifId && r.bp == m.bp
      && FetchAsked(r) == FetchAsked(m)
      && InputsOf(r).fetchReady == InputsOf(m).fetchReady && InputsOf(r).prediction == InputsOf(m).prediction
  {
    hide Shape, DataAsked, Ready, Tick, Trained, FlowStep, Predictor.Predict, IsServed, Stalling;
    if n > 0 {
      var r := Ticks(prog, m, n - 1);
      StallFreezesFetch(prog, m, n - 1);
      AskedAgain(r.iport, r.pipe.pc, false);
      StallTick(prog, r);
    }
  }

  lemma StallTick(prog: Bytes, m: Machine)
    requires WellFormed(m) && m.pipe.halt.Running? && Stalling(m)
    ensures var n := MachineTick(prog, m);
      n.pipe.pc == m.pipe.pc && n.pipe.ifId == m.pipe.ifId && n.bp == m.bp && n.iport == FetchAsked(m)
  {
    hide Shape, FetchAsked, DataAsked, Tick, Trained, FlowStep, Capture, RegsAfterWb, HaltAfter;
  }
}
