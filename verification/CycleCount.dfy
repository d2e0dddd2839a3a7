/** The cycle law over whole runs, and its closed forms for a core without predictor and over flat
    data memory. */
module CycleCount {
  import opened Words
  import opened Decoder
  import opened ByteMemory
  import opened Interpreter
  import opened Pipeline
  import opened Refinement
  import opened Hierarchy
  import opened CacheCost
  import opened Machine
  import opened CommitRefinement
  import opened CycleLaw

  // ---- Runs ----

  lemma TimeStarts(prog: Bytes, a: Arch, m: Machine)
    requires Starts(a, m) && IdealFetch(m.iport) && Quiet(m.dport)
    ensures WellFormed(m) && TimeInv(prog, a, m.dport, m, Ledger([], [], 0), 0)
  {
    hide Shape, Quiet, Predictor.TablesShape, Predictor.NewTables, IdealFetch;
    assert Slot(prog, a, [], 0) == 2;
    PortStarts(m.pipe.exMem, m.dport);
  }

  lemma TimeTick(prog: Bytes, a: Arch, d: Mem, m: Machine, l: Ledger, k: nat)
    requires Shape(d) && Quiet(d) && MachineInv(prog, State(prog, a, k), m) && !HaltInWb(m.pipe)
    requires TimeInv(prog, a, d, m, l, k)
    ensures TimeInv(prog, a, d, MachineTick(prog, m), LedgerTick(l, m), k + |Retired(m)|)
  {
    hide Shape, Quiet, Stalling, Inv, TimeInv, HaltInWb, State, Admissible, MachineTick, CommitOf, WellFormed, Counts,
         Redirecting;
    if Stalling(m) { TimeStalls(prog, a, d, m, l, k); } else { TimeFlows(prog, a, d, m, l, k); }
  }

  /** A tick out of HaltInWb stops the core; out of any other state it does not. */
  lemma StopsOnlyAtWb(prog: Bytes, a: Arch, m: Machine)
    requires MachineInv(prog, a, m)
    ensures MachineTick(prog, m).pipe.halt.Stopped? == HaltInWb(m.pipe)
  {
    hide Shape, Inv, Halted, MachineTick, Exec, Predictor.TablesOk, Admissible, IsHalting;
    RunningAfter(prog, a, m);
    ValidOpWb(prog, a, m.pipe);
  }

  lemma LedgerStep(prog: Bytes, m: Machine, n: nat)
    requires WellFormed(m) && n > 0
    ensures LedgerOf(prog, m, n) == LedgerTick(LedgerOf(prog, m, n - 1), Ticks(prog, m, n - 1))
    ensures Ticks(prog, m, n) == MachineTick(prog, Ticks(prog, m, n - 1))
    ensures |CommitTrace(prog, m, n)| == |CommitTrace(prog, m, n - 1)| + |Retired(Ticks(prog, m, n - 1))|
  {
    hide WellFormed, LedgerTick, MachineTick;
  }

  /** In every reachable running state each stage is in its slot. */
  lemma {:induction false} TimeHolds(prog: Bytes, a: Arch, m: Machine, n: nat)
    requires Starts(a, m) && Admissible(prog, a, m) && IdealFetch(m.iport) && Quiet(m.dport)
    requires WellFormed(m) && Ticks(prog, m, n).pipe.halt.Running?
    ensures TimeInv(prog, a, m.dport, Ticks(prog, m, n), LedgerOf(prog, m, n), |CommitTrace(prog, m, n)|)
  {
    hide Shape, Quiet, WellFormed, Inv, TimeInv, HaltInWb, State, Admissible, MachineTick, Ticks, CommitTrace,
         LedgerOf, Starts;
    hide LedgerTick, IdealFetch, StoppedAt, Trace, Halted, Retired;
    if n == 0 {
      TimeBase(prog, a, m);
    } else {
      LedgerStep(prog, m, n);
      DataShape(m);
      var r := Ticks(prog, m, n - 1);
      if r.pipe.halt.Stopped? { StaysStopped(prog, r); }
      TimeHolds(prog, a, m, n - 1);
      RunHolds(prog, a, m, n - 1);
      var k := |CommitTrace(prog, m, n - 1)|;
      StopsOnlyAtWb(prog, State(prog, a, k), r);
      TimeTick(prog, a, m.dport, r, LedgerOf(prog, m, n - 1), k);
    }
  }

  lemma TimeBase(prog: Bytes, a: Arch, m: Machine)
    requires Starts(a, m) && IdealFetch(m.iport) && Quiet(m.dport)
    ensures WellFormed(m)
    ensures TimeInv(prog, a, m.dport, Ticks(prog, m, 0), LedgerOf(prog, m, 0), |CommitTrace(prog, m, 0)|)
  {
    hide Shape, Quiet, TimeInv, Starts, IdealFetch;
    TimeStarts(prog, a, m);
  }

  lemma DataShape(m: Machine)
    requires WellFormed(m)
    ensures Shape(m.dport)
  {
  }

  // ---- What the ledger says of the trace ----

  /** The instruction at a transfers control. */
  predicate TakenAt(prog: Bytes, a: Arch) {
    var i := InstructionAt(prog, a.pc);
    i.op.JAL? || i.op.JALR? || Condition(i.op, a.regs[i.rs1], a.regs[i.rs2])
  }

  /** An instruction is missed when its predicted direction is not the interpreter's. */
  predicate MissedAt(prog: Bytes, a: Arch, flag: bool, guess: bool) {
    flag == (guess != TakenAt(prog, a)) && (guess ==> Predictable(InstructionAt(prog, a.pc).op))
  }

  predicate MissMeans(prog: Bytes, a: Arch, l: Ledger) {
    && |l.predicted| == |l.missed|
    && forall j | 0 <= j < |l.missed| :: MissedAt(prog, State(prog, a, j), l.missed[j], l.predicted[j])
  }

  /** The mispredict counter, which also sees up to one instruction behind the halting one. */
  predicate Tallied(s: Pipe, l: Ledger) {
    if !HaltInWb(s) then s.mispredicts == Count(l.missed)
    else Count(l.missed) <= s.mispredicts <= s.mispredicts + Bit(s.idEx.valid) <= Count(l.missed) + 1
  }

  lemma TakenMatches(op: Op, v1: Word, v2: Word)
    ensures ActuallyTaken(op, v1, v2) == (op.JAL? || op.JALR? || Condition(op, v1, v2))
    ensures ActuallyTaken(op, v1, v2) ==> IsCondBranch(op) || op.JAL? || op.JALR?
  {
    hide Signed;
  }

  lemma RedirectIsMiss(prog: Bytes, s: Pipe, a: Arch)
    requires s.idEx.valid && IdExFor(prog, s.idEx, a, s)
    ensures MissedAt(prog, a, Redirecting(s), s.idEx.predictedTaken)
    ensures Redirecting(s) ==> IsControl(s.idEx)
  {
    TakenMatches(s.idEx.op, Operand1(s), Operand2(s));
    hide Decode, Fetch, Resolve, ActuallyTaken, Condition, IsLoad;
  }

  lemma CountMore(missed: seq<bool>, flag: bool)
    ensures Count(missed + [flag]) == Count(missed) + Bit(flag)
  {
    assert (missed + [flag])[..|missed|] == missed;
  }

  /** One more instruction leaves EX. */
  lemma MissGrows(prog: Bytes, a: Arch, l: Ledger, flag: bool, guess: bool)
    requires MissMeans(prog, a, l) && MissedAt(prog, State(prog, a, |l.missed|), flag, guess)
    ensures MissMeans(prog, a, Ledger(l.missed + [flag], l.predicted + [guess], 0))
  {
    hide MissedAt, State;
  }

  lemma MissTick(prog: Bytes, a: Arch, m: Machine, l: Ledger, k: nat)
    requires WellFormed(m) && m.pipe.halt.Running? && Inv(prog, State(prog, a, k), m.pipe) && !HaltInWb(m.pipe)
    requires MissMeans(prog, a, l) && |l.missed| == k + Bit(m.pipe.memWb.valid) + Bit(m.pipe.exMem.valid)
    ensures MissMeans(prog, a, LedgerTick(l, m))
  {
    hide Shape, Inv, State, MissedAt, Redirecting, IsHalting, IdExFor, ExMemFor, FrontFor, InputsOf;
    var s := m.pipe;
    if !Stalling(m) && Counts(s) {
      InvParts(prog, State(prog, a, k), s);
      StateAfter(prog, a, k, s.memWb.valid);
      StateAfter(prog, a, k + Bit(s.memWb.valid), s.exMem.valid);
      RedirectIsMiss(prog, s, State(prog, a, |l.missed|));
      MissGrows(prog, a, l, Redirecting(s), s.idEx.predictedTaken);
    }
  }

  lemma FlowCounters(prog: Bytes, s: Pipe, i: Inputs)
    ensures var t := FlowStep(prog, s, i);
      && t.mispredicts == s.mispredicts + Bit(IsControl(s.idEx) && Redirecting(s))
      && (Redirecting(s) ==> !t.idEx.valid)
      && (Redirecting(s) ==> s.idEx.valid)
  {
    hide MemOut, MemStore, ExecuteOut, RegsAfterWb, FetchOut, RedirectTarget, FetchNextPc, HaltAfter, Operand1,
         Operand2, LoadUse;
    hide ActuallyTaken, DecodeOut;
  }

  lemma TallyStall(prog: Bytes, m: Machine, l: Ledger)
    requires WellFormed(m) && m.pipe.halt.Running? && Stalling(m) && !HaltInWb(m.pipe) && Tallied(m.pipe, l)
    ensures Tallied(MachineTick(prog, m).pipe, LedgerTick(l, m))
  {
    StallShape(prog, m);
    hide Shape, Stalling, MachineTick, IsHalting, Capture, RegsAfterWb, HaltAfter, Redirecting, Count;
  }

  lemma TallyFlow(prog: Bytes, s: Pipe, t: Pipe, i: Inputs, l: Ledger, l': Ledger)
    requires t == FlowStep(prog, s, i) && HaltInWb(t) == HaltInMem(s)
    requires !HaltInWb(s) && Tallied(s, l)
    requires Counts(s) && Redirecting(s) ==> IsControl(s.idEx)
    requires l'.missed == (if Counts(s) then l.missed + [Redirecting(s)] else l.missed)
    ensures Tallied(t, l')
  {
    hide HaltInWb, HaltInMem, FlowStep, Redirecting, IsControl, Count;
    FlowCounters(prog, s, i);
    CountMore(l.missed, Redirecting(s));
  }

  lemma Ledgered(prog: Bytes, a: Arch, d: Mem, m: Machine, l: Ledger, k: nat)
    requires Shape(d) && Quiet(d) && TimeInv(prog, a, d, m, l, k)
    ensures var s := m.pipe; var kW := k + Bit(s.memWb.valid);
      && |l.missed| == (if HaltInWb(s) then kW else kW + Bit(s.exMem.valid))
      && (s.memWb.valid ==>
            l.wait == 0 && k <= |l.missed|
            && s.cycles == Slot(prog, a, l.missed, k) + 2 + DataStalls(prog, a, d, k + 1))
  {
    hide Slot, IsHalting, FrontTime, PortAt, IdealFetch, Shape, Quiet, DataStalls, DataAt;
  }

  lemma TallyTick(prog: Bytes, a: Arch, m: Machine, l: Ledger, k: nat)
    requires WellFormed(m) && m.pipe.halt.Running? && Inv(prog, State(prog, a, k), m.pipe) && !HaltInWb(m.pipe)
    requires Tallied(m.pipe, l)
    ensures Tallied(MachineTick(prog, m).pipe, LedgerTick(l, m))
  {
    hide Shape, WellFormed, Inv, State, Redirecting, IsHalting, IdExFor, ExMemFor, FrontFor, InputsOf, Stalling,
         MachineTick, Tallied;
    hide FlowStep, HaltInWb, IsControl;
    var s := m.pipe;
    if Stalling(m) {
      TallyStall(prog, m, l);
    } else {
      FlowMachine(prog, m);
      FlowStages(prog, m);
      InvParts(prog, State(prog, a, k), s);
      if Counts(s) {
        RedirectIsMiss(prog, s, After(prog, s.exMem.valid, After(prog, s.memWb.valid, State(prog, a, k))));
      }
      TallyFlow(prog, s, MachineTick(prog, m).pipe, InputsOf(m), l, LedgerTick(l, m));
    }
  }

  /** In every reachable running state the ledger says what the trace says. */
  lemma {:induction false} MissHolds(prog: Bytes, a: Arch, m: Machine, n: nat)
    requires Starts(a, m) && Admissible(prog, a, m) && IdealFetch(m.iport) && Quiet(m.dport)
    requires WellFormed(m) && Ticks(prog, m, n).pipe.halt.Running?
    ensures MissMeans(prog, a, LedgerOf(prog, m, n)) && Tallied(Ticks(prog, m, n).pipe, LedgerOf(prog, m, n))
  {
    hide Shape, Quiet, WellFormed, Inv, TimeInv, HaltInWb, State, Admissible, MachineTick, Ticks, CommitTrace,
         LedgerOf, Starts;
    hide LedgerTick, IdealFetch, StoppedAt, Trace, Halted, Retired, MissMeans, Tallied;
    if n == 0 {
      MissBase(prog, a, m);
    } else {
      LedgerStep(prog, m, n);
      DataShape(m);
      var r := Ticks(prog, m, n - 1);
      var l := LedgerOf(prog, m, n - 1);
      if r.pipe.halt.Stopped? { StaysStopped(prog, r); }
      MissHolds(prog, a, m, n - 1);
      TimeHolds(prog, a, m, n - 1);
      RunHolds(prog, a, m, n - 1);
      var k := |CommitTrace(prog, m, n - 1)|;
      StopsOnlyAtWb(prog, State(prog, a, k), r);
      Ledgered(prog, a, m.dport, r, l, k);
      MissTick(prog, a, r, l, k);
      TallyTick(prog, a, r, l, k);
    }
  }

  lemma MissBase(prog: Bytes, a: Arch, m: Machine)
    requires Starts(a, m) && WellFormed(m)
    ensures MissMeans(prog, a, LedgerOf(prog, m, 0)) && Tallied(Ticks(prog, m, 0).pipe, LedgerOf(prog, m, 0))
  {
    hide Shape, WellFormed, TakenAt;
    assert Count([]) == 0;
  }

  // ---- The law ----

  /** The mispredicted ones of the first |predicted| instructions, counted on the trace. */
  function Misses(prog: Bytes, a: Arch, predicted: seq<bool>): nat {
    if predicted == [] then 0
    else
      var j := |predicted| - 1;
      Misses(prog, a, predicted[..j]) + Bit(predicted[j] != TakenAt(prog, State(prog, a, j)))
  }

  lemma {:induction false} MissesCount(prog: Bytes, a: Arch, l: Ledger, k: nat)
    requires MissMeans(prog, a, l) && k <= |l.missed|
    ensures Count(l.missed[..k]) == Misses(prog, a, l.predicted[..k])
  {
    hide TakenAt, State;
    if k > 0 {
      MissesCount(prog, a, l, k - 1);
      assert l.missed[..k] == l.missed[..k - 1] + [l.missed[k - 1]];
      CountMore(l.missed[..k - 1], l.missed[k - 1]);
      assert l.predicted[..k][..k - 1] == l.predicted[..k - 1];
    }
  }

  /** The interpreter's halting instruction is not a miss. */
  lemma HaltIsNoMiss(prog: Bytes, a: Arch, l: Ledger, k: nat)
    requires MissMeans(prog, a, l) && |l.missed| == k + 1 && Halted(prog, State(prog, a, k))
    ensures Count(l.missed) == Count(l.missed[..k])
  {
    hide State, InstructionAt;
    assert MissedAt(prog, State(prog, a, k), l.missed[k], l.predicted[k]);
    assert l.missed == l.missed[..k] + [l.missed[k]];
    CountMore(l.missed[..k], l.missed[k]);
  }

  lemma HaltIsNoStall(prog: Bytes, a: Arch, d: Mem, k: nat)
    requires Shape(d) && Quiet(d) && Halted(prog, State(prog, a, k))
    ensures DataStalls(prog, a, d, k + 1) == DataStalls(prog, a, d, k)
  {
    hide Shape, Quiet, State, DataAt, InstructionAt, Effective, Cost;
  }

  /** The tick that stops the core. */
  lemma LastTick(prog: Bytes, m: Machine, l: Ledger)
    requires WellFormed(m) && m.pipe.halt.Running? && HaltInWb(m.pipe) && Tallied(m.pipe, l)
    ensures var n := MachineTick(prog, m).pipe; var l' := LedgerTick(l, m);
      && n.cycles == m.pipe.cycles + 1
      && l'.missed == l.missed && l'.predicted == l.predicted
      && Count(l.missed) <= n.mispredicts <= Count(l.missed) + 1
  {
    hide Shape, WellFormed, InputsOf, FlowStep, Redirecting, StallStep, Count, IsControl, HaltInWb, HaltInMem;
    hide Trained, FetchAsked, DataAsked, Hierarchy.Tick;
    var s := m.pipe;
    FlowCounters(prog, s, InputsOf(m));
    FlowShape(prog, s, InputsOf(m), FlowStep(prog, s, InputsOf(m)));
    StallCounters(s);
  }

  lemma StallCounters(s: Pipe)
    ensures StallStep(s).cycles == s.cycles + 1 && StallStep(s).mispredicts == s.mispredicts
  {
    hide Capture, RegsAfterWb, HaltAfter;
  }

  /** What the law says of a stopped core that retired k + 1 instructions. */
  predicate Law(prog: Bytes, a: Arch, d: Mem, s: Pipe, predicted: seq<bool>, k: nat)
    requires Shape(d) && Quiet(d)
  {
    var misses := Misses(prog, a, predicted);
    && |predicted| == k
    && s.instructions == k + 1
    && s.cycles == s.instructions + 4 + LoadUses(prog, a, k) + 2 * misses + DataStalls(prog, a, d, k)
    && misses <= s.mispredicts <= misses + 1
  }

  lemma LawAtStop(prog: Bytes, a: Arch, d: Mem, m: Machine, l: Ledger, k: nat)
    requires Shape(d) && Quiet(d) && MachineInv(prog, State(prog, a, k), m) && HaltInWb(m.pipe)
    requires TimeInv(prog, a, d, m, l, k) && MissMeans(prog, a, l) && Tallied(m.pipe, l) && m.pipe.instructions == k
    ensures var l' := LedgerTick(l, m);
      k < |l'.predicted| && Law(prog, a, d, MachineTick(prog, m).pipe, l'.predicted[..k], k)
  {
    hide Shape, Quiet, Inv, TimeInv, State, Admissible, MachineTick, LedgerTick, MissMeans, Tallied, Halted,
         DataStalls, LoadUses;
    hide HaltInWb, WellFormed, Predictor.TablesOk, Count, CommitAt, CommitOf, InstructionAt;
    ValidOpWb(prog, State(prog, a, k), m.pipe);
    TickRefines(prog, State(prog, a, k), m);
    LastTick(prog, m, l);
    Ledgered(prog, a, d, m, l, k);
    LawSums(prog, a, d, l, k);
  }

  lemma LawSums(prog: Bytes, a: Arch, d: Mem, l: Ledger, k: nat)
    requires Shape(d) && Quiet(d) && MissMeans(prog, a, l) && |l.missed| == k + 1 && Halted(prog, State(prog, a, k))
    ensures Slot(prog, a, l.missed, k) == 2 + k + LoadUses(prog, a, k) + 2 * Misses(prog, a, l.predicted[..k])
    ensures Count(l.missed) == Misses(prog, a, l.predicted[..k]) && |l.predicted| == k + 1
    ensures DataStalls(prog, a, d, k + 1) == DataStalls(prog, a, d, k)
  {
    hide Shape, Quiet, State, Halted, DataStalls, LoadUses, Count, MissedAt, Misses;
    MissesCount(prog, a, l, k);
    HaltIsNoMiss(prog, a, l, k);
    HaltIsNoStall(prog, a, d, k);
  }

  /** The exact cycle law: with single-cycle instruction memory, any prefetch-free data hierarchy and any
      predictor, a stopped core has spent one cycle per retired instruction, four to fill the
      pipeline, one per load-use pair, two per mispredicted instruction, and what the data hierarchy
      costs beyond one cycle per access: all counted on the interpreter's trace alone. */
  lemma {:induction false} ExactCycles(prog: Bytes, a: Arch, m: Machine, n: nat)
    requires Starts(a, m) && Admissible(prog, a, m) && IdealFetch(m.iport) && Quiet(m.dport)
    requires WellFormed(m) && Ticks(prog, m, n).pipe.halt.Stopped?
    ensures Shape(m.dport)
    ensures var k := |CommitTrace(prog, m, n)| - 1; var predicted := LedgerOf(prog, m, n).predicted;
      0 <= k < |predicted| && HaltsAt(prog, a, k) && Law(prog, a, m.dport, Ticks(prog, m, n).pipe, predicted[..k], k)
  {
    hide Shape, Quiet, WellFormed, Inv, TimeInv, HaltInWb, State, Admissible, MachineTick, Ticks, CommitTrace,
         LedgerOf, Starts;
    hide LedgerTick, IdealFetch, StoppedAt, Trace, Halted, Retired, MissMeans, Tallied, Law, HaltsAt;
    DataShape(m);
    CommitsRefine(prog, a, m, n);
    if n == 0 {
      NotStopped(prog, a, m);
    } else {
      LedgerStep(prog, m, n);
      var r := Ticks(prog, m, n - 1);
      if r.pipe.halt.Stopped? {
        StaysStopped(prog, r);
        StoppedLedger(LedgerOf(prog, m, n - 1), r);
        ExactCycles(prog, a, m, n - 1);
      } else {
        LawArrives(prog, a, m, n);
      }
    }
  }

  lemma NotStopped(prog: Bytes, a: Arch, m: Machine)
    requires Starts(a, m) && WellFormed(m)
    ensures Ticks(prog, m, 0).pipe.halt.Running?
  {
    hide Shape, WellFormed;
  }

  lemma StoppedLedger(l: Ledger, m: Machine)
    requires WellFormed(m) && m.pipe.halt.Stopped?
    ensures LedgerTick(l, m) == l
  {
    hide Shape, WellFormed;
  }

  lemma LawArrives(prog: Bytes, a: Arch, m: Machine, n: nat)
    requires Starts(a, m) && Admissible(prog, a, m) && IdealFetch(m.iport) && Quiet(m.dport)
    requires WellFormed(m) && n > 0 && Ticks(prog, m, n - 1).pipe.halt.Running? && Ticks(prog, m, n).pipe.halt.Stopped?
    ensures Shape(m.dport)
    ensures var k := |CommitTrace(prog, m, n)| - 1; var predicted := LedgerOf(prog, m, n).predicted;
      0 <= k < |predicted| && Law(prog, a, m.dport, Ticks(prog, m, n).pipe, predicted[..k], k)
  {
    hide Shape, Quiet, WellFormed, Inv, TimeInv, HaltInWb, State, Admissible, MachineTick, Ticks, CommitTrace,
         LedgerOf, Starts;
    hide LedgerTick, IdealFetch, StoppedAt, Trace, Halted, Retired, MissMeans, Tallied, Law;
    LedgerStep(prog, m, n);
    DataShape(m);
    var r := Ticks(prog, m, n - 1);
    var k := |CommitTrace(prog, m, n - 1)|;
    MissHolds(prog, a, m, n - 1);
    TimeHolds(prog, a, m, n - 1);
    RunHolds(prog, a, m, n - 1);
    StopsOnlyAtWb(prog, State(prog, a, k), r);
    RetiresAtHalt(r);
    LawAtStop(prog, a, m.dport, r, LedgerOf(prog, m, n - 1), k);
  }

  lemma RetiresAtHalt(m: Machine)
    requires m.pipe.halt.Running? && HaltInWb(m.pipe)
    ensures |Retired(m)| == 1
  {
    hide CommitOf;
  }

  // ---- Closed forms ----

  function Transfers(prog: Bytes, a: Arch, k: nat): nat {
    if k == 0 then 0 else Transfers(prog, a, k - 1) + Bit(TakenAt(prog, State(prog, a, k - 1)))
  }

  function MemOps(prog: Bytes, a: Arch, k: nat): nat {
    if k == 0 then 0 else MemOps(prog, a, k - 1) + Bit(DataRequest(prog, State(prog, a, k - 1)).Some?)
  }

  predicate NoGuess(guesses: seq<bool>) { forall j | 0 <= j < |guesses| :: !guesses[j] }

  /** Without a predictor nothing is ever predicted taken. */
  lemma {:induction false} NeverGuesses(prog: Bytes, m: Machine, n: nat)
    requires WellFormed(m) && m.bp.None? && !m.pipe.ifId.predictedTaken && !m.pipe.idEx.predictedTaken
    ensures var r := Ticks(prog, m, n);
      r.bp.None? && !r.pipe.ifId.predictedTaken && !r.pipe.idEx.predictedTaken
          && NoGuess(LedgerOf(prog, m, n).predicted)
  {
    hide WellFormed, MachineTick, LedgerTick, Ticks, LedgerOf, CommitTrace;
    if n == 0 {
      TicksAtZero(prog, m);
    } else {
      NeverGuesses(prog, m, n - 1);
      LedgerStep(prog, m, n);
      NoGuessTick(prog, Ticks(prog, m, n - 1), LedgerOf(prog, m, n - 1));
    }
  }

  lemma TicksAtZero(prog: Bytes, m: Machine)
    requires WellFormed(m)
    ensures Ticks(prog, m, 0) == m && LedgerOf(prog, m, 0).predicted == []
  {
    hide WellFormed, MachineTick;
  }

  lemma NoGuessTick(prog: Bytes, m: Machine, l: Ledger)
    requires WellFormed(m) && m.bp.None? && !m.pipe.ifId.predictedTaken && !m.pipe.idEx.predictedTaken
    requires NoGuess(l.predicted)
    ensures var n := MachineTick(prog, m);
      n.bp.None? && !n.pipe.ifId.predictedTaken && !n.pipe.idEx.predictedTaken && NoGuess(LedgerTick(l, m).predicted)
  {
    hide Shape, WellFormed, MemOut, MemStore, ExecuteOut, RegsAfterWb, RedirectTarget, FetchNextPc, HaltAfter,
         Operand1, Operand2;
    hide Redirects, LoadUse, Fetch, Decode, DataAsked, FetchAsked, Hierarchy.Tick, IsControl, Counts;
  }

  lemma {:induction false} MissesAreTransfers(prog: Bytes, a: Arch, predicted: seq<bool>)
    requires NoGuess(predicted)
    ensures Misses(prog, a, predicted) == Transfers(prog, a, |predicted|)
  {
    hide TakenAt, State;
    if predicted != [] { MissesAreTransfers(prog, a, predicted[..|predicted| - 1]); }
  }

  lemma {:induction false} FlatStalls(prog: Bytes, a: Arch, d: Mem, k: nat)
    requires d.Flat? && Shape(d) && Quiet(d)
    ensures IsFlat(DataAt(prog, a, d, k), d.latency)
    ensures DataStalls(prog, a, d, k) == (d.latency - 1) * MemOps(prog, a, k)
  {
    hide Shape, Quiet, State, IsFlat, DataAt, DataStalls, MemOps;
    if k == 0 {
      FlatBase(prog, a, d);
    } else {
      FlatStalls(prog, a, d, k - 1);
      FlatMore(prog, a, d, k - 1, d.latency - 1);
    }
  }

  lemma FlatMore(prog: Bytes, a: Arch, d: Mem, k: nat, x: nat)
    requires d.Flat? && Shape(d) && Quiet(d) && x == d.latency - 1
    requires IsFlat(DataAt(prog, a, d, k), d.latency) && DataStalls(prog, a, d, k) == x * MemOps(prog, a, k)
    ensures IsFlat(DataAt(prog, a, d, k + 1), d.latency) && DataStalls(prog, a, d, k + 1) == x * MemOps(prog, a, k + 1)
  {
    hide Shape, Quiet, State, IsFlat, DataAt, DataStalls, AccessAt, MemCycles, MemOps;
    StallsStep(prog, a, d, k);
    FlatAccess(prog, State(prog, a, k), DataAt(prog, a, d, k), d.latency);
    MemOpsStep(prog, a, k, x);
  }

  predicate IsFlat(m: Mem, latency: Pos) { m.Flat? && m.latency == latency }

  lemma FlatBase(prog: Bytes, a: Arch, d: Mem)
    requires d.Flat? && Shape(d) && Quiet(d)
    ensures IsFlat(DataAt(prog, a, d, 0), d.latency)
    ensures DataStalls(prog, a, d, 0) == (d.latency - 1) * MemOps(prog, a, 0)
  {
    hide Shape, Quiet;
    assert MemOps(prog, a, 0) == 0;
  }

  lemma MemOpsStep(prog: Bytes, a: Arch, k: nat, x: nat)
    ensures x * MemOps(prog, a, k + 1)
            == x * MemOps(prog, a, k) + (if DataRequest(prog, State(prog, a, k)).Some? then x else 0)
  {
    hide InstructionAt, State, IsMemOp;
  }

  lemma FlatAccess(prog: Bytes, a: Arch, d: Mem, latency: Pos)
    requires IsFlat(d, latency) && Shape(d) && Quiet(d)
    ensures IsFlat(AccessAt(prog, a, d), latency)
    ensures MemCycles(prog, a, d) == if DataRequest(prog, a).Some? then latency else 1
  {
    hide InstructionAt, Effective, IsMemOp;
  }

  /** The law without a predictor and over data memory of latency L:
      cycles = retired + 4 + load-use pairs + 2 * control transfers + (L - 1) * memory operations. */
  predicate ClosedLaw(prog: Bytes, a: Arch, latency: Pos, s: Pipe, k: nat) {
    && s.instructions == k + 1
    && s.cycles == s.instructions + 4 + LoadUses(prog, a, k) + 2 * Transfers(prog, a, k)
       + (latency - 1) * MemOps(prog, a, k)
  }

  lemma CloseLaw(prog: Bytes, a: Arch, d: Mem, s: Pipe, predicted: seq<bool>, k: nat)
    requires d.Flat? && Shape(d) && Quiet(d) && NoGuess(predicted) && Law(prog, a, d, s, predicted, k)
    ensures ClosedLaw(prog, a, d.latency, s, k)
  {
    hide Shape, Quiet, NoGuess, DataStalls, LoadUses, Misses, Transfers, MemOps;
    FlatStalls(prog, a, d, k);
    MissesAreTransfers(prog, a, predicted);
  }

  lemma CyclesInClosedForm(prog: Bytes, a: Arch, m: Machine, n: nat)
    requires Starts(a, m) && IdealFetch(m.iport) && m.dport.Flat? && Quiet(m.dport) && m.bp.None?
    requires WellFormed(m) && Ticks(prog, m, n).pipe.halt.Stopped?
    ensures var k := |CommitTrace(prog, m, n)| - 1;
      0 <= k && HaltsAt(prog, a, k) && ClosedLaw(prog, a, m.dport.latency, Ticks(prog, m, n).pipe, k)
  {
    hide Starts, IdealFetch, WellFormed, Ticks, CommitTrace, LedgerOf, HaltsAt, Law, ClosedLaw, Shape, Quiet,
         AlignedRun;
    NoGuessAtStart(a, m);
    NeverGuesses(prog, m, n);
    DataShape(m);
    ExactCycles(prog, a, m, n);
    var k := |CommitTrace(prog, m, n)| - 1;
    CloseLaw(prog, a, m.dport, Ticks(prog, m, n).pipe, LedgerOf(prog, m, n).predicted[..k], k);
  }

  lemma NoGuessAtStart(a: Arch, m: Machine)
    requires Starts(a, m)
    ensures !m.pipe.ifId.predictedTaken && !m.pipe.idEx.predictedTaken
  {
    hide WellFormed;
  }
}
