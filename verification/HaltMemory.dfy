/** The store behind the halting instruction.  When the core stops, the next instruction may already be in
    MEM; this file says exactly what it then does to data memory. */
module HaltMemory {
  import opened Words
  import opened Decoder
  import opened ByteMemory
  import opened Interpreter
  import opened Pipeline
  import opened Refinement
  import opened Hierarchy
  import opened Machine
  import opened CommitRefinement
  import opened CacheCost
  import opened CycleLaw
  import opened CycleCount
  import opened Progress
  import opened HaltTail

  // ---- The tick that stops the core ----

  predicate GetsToMem(s: Pipe, ready: bool) { s.exMem.valid && !MemStalls(s.exMem, ready) }

  /** Data memory after the tick that stops the core. */
  function MemoryFrom(prog: Bytes, f: Arch, gotToMem: bool): Bytes {
    if gotToMem then Exec(prog, Beyond(prog, f)).mem else f.mem
  }

  lemma MemoryAtStop(prog: Bytes, a: Arch, s: Pipe, i: Inputs)
    requires Inv(prog, a, s) && TailInv(prog, a, s) && HaltInWb(s) && s.halt.Running?
    ensures Step(prog, s, i).mem == MemoryFrom(prog, a, GetsToMem(s, i.dataReady))
  {
    hide ExMemFor, IdExFor, FrontFor, MemWbFor, FlowStep, StallStep, IsHalting, MemStore, MemStalls, Exec, IsStore,
         Decode, Fetch;
    hide AluResult, SetReg;
    StopMem(prog, a, s);
    StepMem(prog, s, i);
    if GetsToMem(s, i.dataReady) {
      MemoryMatches(prog, s.exMem, Beyond(prog, a));
      MemOutShape(s.exMem, s.mem, i.dataReady);
    } else {
      NoStore(s.exMem, s.mem, i.dataReady);
    }
  }

  lemma NoStore(x: ExMem, mem: Bytes, ready: bool)
    requires !(x.valid && !MemStalls(x, ready))
    ensures MemStore(x, mem, ready) == mem
  {
  }

  lemma StopMem(prog: Bytes, a: Arch, s: Pipe)
    requires Inv(prog, a, s) && HaltInWb(s)
    ensures s.mem == a.mem
  {
    hide Decode, Fetch, IdExFor, FrontFor, ExMemFor, IsHalting, RdValue, NextPc, StoreResult;
    ValidOp(prog, s.memWb, s.exMem, a);
  }

  lemma StepMem(prog: Bytes, s: Pipe, i: Inputs)
    requires s.halt.Running?
    ensures Step(prog, s, i).mem == if MemStalls(s.exMem, i.dataReady) then s.mem
      else MemStore(s.exMem, s.mem, i.dataReady)
  {
    hide MemStore, MemStalls, MemOut, ExecuteOut, DecodeOut, FetchOut, RegsAfterWb, Operand1, Operand2, Redirects,
         LoadUse, Capture;
    hide HaltAfter, RedirectTarget, FetchNextPc, IsControl;
  }

  /** The last running state of a stopped run. */
  lemma {:induction false} LastRunning(prog: Bytes, m: Machine, n: nat) returns (j: nat)
    requires WellFormed(m) && m.pipe.halt.Running? && Ticks(prog, m, n).pipe.halt.Stopped?
    ensures j < n && Ticks(prog, m, j).pipe.halt.Running?
    ensures Ticks(prog, m, n) == MachineTick(prog, Ticks(prog, m, j))
    ensures CommitTrace(prog, m, n) == CommitTrace(prog, m, j) + Retired(Ticks(prog, m, j))
  {
    hide WellFormed, MachineTick, Ticks, CommitTrace, Retired;
    if n == 0 {
      TicksAtZero(prog, m);
      assert false;
    }
    TicksStep(prog, m, n);
    var r := Ticks(prog, m, n - 1);
    if r.pipe.halt.Stopped? {
      StaysStopped(prog, r);
      j := LastRunning(prog, m, n - 1);
    } else {
      j := n - 1;
    }
  }

  lemma OnlyStores(prog: Bytes, a: Arch)
    requires !IsStore(InstructionAt(prog, a.pc).op)
    ensures Exec(prog, a).mem == a.mem
  {
    hide Decode, Fetch, NextPc, RdValue, SetReg;
  }

  /** Final data memory, for both halting opcodes: the interpreter's, or that of executing one instruction
      more; and the interpreter's when that instruction is no store. */
  lemma FinalMemory(prog: Bytes, a: Arch, m: Machine, n: nat)
    requires Starts(a, m) && Admissible(prog, a, m) && Ticks(prog, m, n).pipe.halt.Stopped?
    ensures var k := |CommitTrace(prog, m, n)|;
      && k > 0 && HaltsAt(prog, a, k - 1)
      && var f := State(prog, a, k - 1); var mem := Ticks(prog, m, n).pipe.mem;
         && (mem == f.mem || mem == Exec(prog, Beyond(prog, f)).mem)
         && (!IsStore(InstructionAt(prog, Add(f.pc, 4)).op) ==> mem == f.mem)
  {
    hide WellFormed, Inv, HaltInWb, State, Admissible, MachineTick, Ticks, CommitTrace, Starts, StoppedAt, Trace,
         Halted, TailInv, InputsOf;
    hide Step, GetsToMem, HaltsAt, Retired, Exec, IsStore, InstructionAt, AluResult;
    HaltPrecision(prog, a, m, n);
    StartsRunning(a, m);
    var j := LastRunning(prog, m, n);
    StopsFrom(prog, a, m, j);
    var f := State(prog, a, |CommitTrace(prog, m, n)| - 1);
    if !IsStore(InstructionAt(prog, Add(f.pc, 4)).op) { OnlyStores(prog, Beyond(prog, f)); }
  }

  lemma StartsRunning(a: Arch, m: Machine)
    requires Starts(a, m)
    ensures WellFormed(m) && m.pipe.halt.Running?
  {
    hide WellFormed;
  }

  lemma StopsFrom(prog: Bytes, a: Arch, m: Machine, j: nat)
    requires Starts(a, m) && Admissible(prog, a, m) && WellFormed(m)
    requires Ticks(prog, m, j).pipe.halt.Running? && MachineTick(prog, Ticks(prog, m, j)).pipe.halt.Stopped?
    ensures var r := Ticks(prog, m, j); var k := |CommitTrace(prog, m, j)|;
      && HaltInWb(r.pipe) && |Retired(r)| == 1
      && MachineTick(prog, r).pipe.mem == MemoryFrom(prog, State(prog, a, k), GetsToMem(r.pipe, InputsOf(r).dataReady))
  {
    hide WellFormed, Inv, HaltInWb, State, Admissible, MachineTick, Ticks, CommitTrace, Starts, StoppedAt, Trace,
         Halted, TailInv, InputsOf;
    hide Step, MemoryFrom, GetsToMem, HaltsAt, Retired;
    var r := Ticks(prog, m, j);
    var k := |CommitTrace(prog, m, j)|;
    RunHolds(prog, a, m, j);
    TailHolds(prog, a, m, j);
    StopsOnlyAtWb(prog, State(prog, a, k), r);
    RetiresAtHalt(r);
    TickShape(prog, r);
    MemoryAtStop(prog, State(prog, a, k), r.pipe, InputsOf(r));
  }

  // ---- Single-cycle fetch ----

  /** An instruction stands behind the halting one. */
  predicate Followed(s: Pipe) {
    if HaltInWb(s) then s.exMem.valid
    else if HaltInMem(s) then s.idEx.valid
    else FrontFull(s)
  }

  predicate FrontFull(s: Pipe) { s.idEx.valid ==> s.ifId.valid }

  lemma FrontIsFull(prog: Bytes, a: Arch, d: Mem, m: Machine, l: Ledger, k: nat)
    requires Shape(d) && Quiet(d) && TimeInv(prog, a, d, m, l, k)
    ensures !HaltInWb(m.pipe) && !HaltInMem(m.pipe) ==> FrontFull(m.pipe)
  {
    hide Shape, Quiet, Slot, IsHalting, PortAt, DataAt, IdealFetch, DataStalls;
  }

  lemma FollowedIn(prog: Bytes, a: Arch, s: Pipe, i: Inputs)
    requires Inv(prog, a, s) && !HaltInWb(s) && !HaltInMem(s) && FrontFull(s)
    requires s.idEx.valid && IsHalting(s.idEx.op)
    ensures FlowStep(prog, s, i).idEx.valid
  {
    hide FlowStep, Exec, Inv, FrontFor, IdExFor, IsHalting, Redirecting, LoadUse, ExecuteOut, MemOut, MemStore,
         RegsAfterWb;
    hide Operand1, Operand2, FetchOut, FetchNextPc, HaltAfter, RedirectTarget, DecodeOut;
    InvFront(prog, a, s);
    TailFront(prog, s, After(prog, s.exMem.valid, After(prog, s.memWb.valid, a)));
    FlowShape(prog, s, i, FlowStep(prog, s, i));
    FrontValid(prog, s, i);
  }

  lemma FollowedTick(prog: Bytes, a: Arch, m: Machine)
    requires WellFormed(m) && m.pipe.halt.Running? && Inv(prog, a, m.pipe) && !HaltInWb(m.pipe)
    requires Followed(m.pipe)
    ensures var t := MachineTick(prog, m).pipe; HaltInWb(t) || HaltInMem(t) ==> Followed(t)
  {
    hide WellFormed, Stalling, MachineTick, InputsOf, Inv, IsHalting, FlowStep, StallStep;
    var s := m.pipe;
    if Stalling(m) {
      StallShape(prog, m);
    } else {
      FlowMachine(prog, m);
      FlowStages(prog, m);
      if !HaltInMem(s) && s.idEx.valid && IsHalting(s.idEx.op) { FollowedIn(prog, a, s, InputsOf(m)); }
    }
  }

  lemma {:induction false} FollowedHolds(prog: Bytes, a: Arch, m: Machine, n: nat)
    requires Starts(a, m) && Admissible(prog, a, m) && IdealFetch(m.iport) && Quiet(m.dport)
    requires WellFormed(m) && Ticks(prog, m, n).pipe.halt.Running?
    ensures Followed(Ticks(prog, m, n).pipe)
  {
    hide WellFormed, Inv, HaltInWb, HaltInMem, State, Admissible, MachineTick, Ticks, CommitTrace, Starts, StoppedAt,
         Trace, Halted;
    hide Quiet, FrontFull, IdealFetch, LedgerOf, TimeInv, Retired, Shape;
    DataShape(m);
    TimeHolds(prog, a, m, n);
    FrontIsFull(prog, a, m.dport, Ticks(prog, m, n), LedgerOf(prog, m, n), |CommitTrace(prog, m, n)|);
    if n == 0 {
      FollowedBase(prog, a, m);
    } else {
      TicksStep(prog, m, n);
      var r := Ticks(prog, m, n - 1);
      if r.pipe.halt.Stopped? { StaysStopped(prog, r); }
      FollowedHolds(prog, a, m, n - 1);
      RunHolds(prog, a, m, n - 1);
      var k := |CommitTrace(prog, m, n - 1)|;
      StopsOnlyAtWb(prog, State(prog, a, k), r);
      FollowedTick(prog, State(prog, a, k), r);
    }
  }

  lemma FollowedBase(prog: Bytes, a: Arch, m: Machine)
    requires Starts(a, m) && WellFormed(m)
    ensures Ticks(prog, m, 0) == m && Followed(m.pipe)
  {
    hide WellFormed;
  }

  /** The instruction beyond asks for its access in the tick that stops the core, and in no tick before. */
  lemma ServedAtStop(prog: Bytes, m: Machine, b: Arch, d: Mem)
    requires WellFormed(m) && Shape(d) && Quiet(d) && PortAt(m.pipe.exMem, m.dport, 0, d)
    requires m.pipe.exMem.valid && ExMemFor(prog, m.pipe.exMem, b)
    ensures GetsToMem(m.pipe, InputsOf(m).dataReady) == (MemCycles(prog, b, d) == 1)
  {
    hide Shape, Quiet, ExMemFor, WellFormed, DataRequest, Cost, IsStore, IsMemOp, Ready, IsServed, FetchAsked,
         CacheCost.Access;
    var x := m.pipe.exMem;
    MemRequest(prog, x, b);
    if AsksData(x) { PortWaits(x.aluOut, IsStore(x.op), 0, d); }
  }

  lemma HaltKeepsData(prog: Bytes, a: Arch, d: Mem, k: nat)
    requires Shape(d) && Quiet(d) && Halted(prog, State(prog, a, k))
    ensures DataAt(prog, a, d, k + 1) == DataAt(prog, a, d, k)
  {
    hide Shape, Quiet, State, InstructionAt, Effective, CacheCost.Access;
  }

  /** Whether the instruction beyond gets to MEM in time is a matter of the trace alone. */
  lemma GetsThere(prog: Bytes, a: Arch, d: Mem, m: Machine, l: Ledger, k: nat)
    requires Shape(d) && Quiet(d) && WellFormed(m) && Inv(prog, State(prog, a, k), m.pipe) && HaltInWb(m.pipe)
    requires TailInv(prog, State(prog, a, k), m.pipe) && Followed(m.pipe) && TimeInv(prog, a, d, m, l, k)
    ensures GetsToMem(m.pipe, InputsOf(m).dataReady)
            == (MemCycles(prog, Beyond(prog, State(prog, a, k)), DataAt(prog, a, d, k)) == 1)
  {
    hide Shape, Quiet, WellFormed, Inv, State, Halted, ExMemFor, IdExFor, InputsOf, GetsToMem, MemCycles, DataAt,
         Beyond;
    hide IsHalting, PortAt, DataStalls, IdealFetch;
    ValidOpWb(prog, State(prog, a, k), m.pipe);
    Ledgered(prog, a, d, m, l, k);
    HaltKeepsData(prog, a, d, k);
    ServedAtStop(prog, m, Beyond(prog, State(prog, a, k)), DataAt(prog, a, d, k));
  }

  /** With single-cycle fetch and any prefetch-free data hierarchy the final memory is exact, for both
      halting opcodes: the instruction beyond the halting one takes effect if and only if its access takes
      one cycle in the hierarchy the trace has left. */
  lemma EscapingStore(prog: Bytes, a: Arch, m: Machine, n: nat)
    requires Starts(a, m) && Admissible(prog, a, m) && IdealFetch(m.iport) && Quiet(m.dport)
    requires WellFormed(m) && Ticks(prog, m, n).pipe.halt.Stopped?
    ensures Shape(m.dport) && |CommitTrace(prog, m, n)| > 0 && HaltsAt(prog, a, |CommitTrace(prog, m, n)| - 1)
    ensures var k := |CommitTrace(prog, m, n)| - 1; var f := State(prog, a, k); var mem := Ticks(prog, m, n).pipe.mem;
      var inTime := MemCycles(prog, Beyond(prog, f), DataAt(prog, a, m.dport, k)) == 1;
      && mem == MemoryFrom(prog, f, inTime)
      && (mem == f.mem <==> (inTime ==> Exec(prog, Beyond(prog, f)).mem == f.mem))
  {
    hide WellFormed, Inv, HaltInWb, State, Admissible, MachineTick, Ticks, CommitTrace, Starts, StoppedAt, Trace,
         Halted, TailInv, InputsOf;
    hide HaltsAt, Retired, IdealFetch, Exec, Beyond, GetsToMem, MemCycles, DataAt, Quiet, Shape, LedgerOf, TimeInv,
         Followed;
    HaltPrecision(prog, a, m, n);
    StartsRunning(a, m);
    DataShape(m);
    var j := LastRunning(prog, m, n);
    var k := |CommitTrace(prog, m, j)|;
    StopsFrom(prog, a, m, j);
    FollowedHolds(prog, a, m, j);
    TailHolds(prog, a, m, j);
    TimeHolds(prog, a, m, j);
    RunHolds(prog, a, m, j);
    GetsThere(prog, a, m.dport, Ticks(prog, m, j), LedgerOf(prog, m, j), k);
  }

  // ---- A program whose store escapes ----

  const ESCAPE: Bytes := map[0 := 0x73, 1 := 0x00, 2 := 0x10, 3 := 0x00, 4 := 0x23, 5 := 0x20, 6 := 0x10, 7 := 0x04]

  lemma EscapeDecodes()
    ensures InstructionAt(ESCAPE, 0).op.EBREAK?
    ensures InstructionAt(ESCAPE, 4) == Instruction(SW, 0, 0, 1, 0x40)
  {
    assert LoadWord(ESCAPE, 0) == 0x0010_0073;
    assert LoadWord(ESCAPE, 4) == 0x0410_2023;
    assert Decode(0x0010_0073).op.EBREAK?;
    assert Decode(0x0410_2023) == Instruction(SW, 0, 0, 1, 0x40);
  }

  function EscapeStart(): Arch { Arch(0, seq(32, i => if i == 1 then 7 else 0), map[]) }

  function EscapeCore(): (m: Machine)
    ensures Starts(EscapeStart(), m)
  {
    Machine(Initial(EscapeStart()), Flat(1, false, 0), Flat(1, false, 0), None)
  }

  lemma EscapeHalts()
    ensures HaltsAt(ESCAPE, EscapeStart(), 0)
  {
    hide Fetch, Decode;
    EscapeDecodes();
    assert State(ESCAPE, EscapeStart(), 0) == EscapeStart();
  }

  lemma StoreShows(prog: Bytes, a: Arch)
    requires InstructionAt(prog, a.pc).op.SW? && a.mem == map[]
    ensures Exec(prog, a).mem != map[]
  {
    hide Fetch, Decode, NextPc, RdValue;
    var i := InstructionAt(prog, a.pc);
    assert Effective(i, a.regs[i.rs1]) in Exec(prog, a).mem;
  }

  lemma EscapeStores()
    ensures Exec(ESCAPE, Beyond(ESCAPE, EscapeStart())).mem != EscapeStart().mem
  {
    hide Fetch, Decode, Exec, SetReg, AluResult;
    EscapeDecodes();
    StoreShows(ESCAPE, Beyond(ESCAPE, EscapeStart()));
  }

  /** So a core can stop with a data memory that is not the interpreter's. */
  lemma MemoryCanDiffer()
    ensures exists prog: Bytes, a: Arch, m: Machine, n: nat | Starts(a, m) && Ticks(prog, m, n).pipe.halt.Stopped? ::
      HaltsAt(prog, a, 0) && Ticks(prog, m, n).pipe.mem != State(prog, a, 0).mem
  {
    hide WellFormed, Halted, Exec, InstructionAt, Ticks, Starts, CommitTrace, Gap, HaltsAt, EscapeCore, EscapeStart,
         Beyond;
    var a, m := EscapeStart(), EscapeCore();
    EscapeHalts();
    EscapeStores();
    EscapeShape();
    RunHalts(ESCAPE, a, m, 0);
    EscapingStore(ESCAPE, a, m, Gap(m));
    var k := |CommitTrace(ESCAPE, m, Gap(m))| - 1;
    HaltUnique(ESCAPE, a, 0, k);
    EscapeDecodes();
    assert HaltsAt(ESCAPE, a, 0) && Ticks(ESCAPE, m, Gap(m)).pipe.mem != State(ESCAPE, a, 0).mem;
  }

  lemma EscapeShape()
    ensures var m := EscapeCore();
            IdealFetch(m.iport) && IdealFetch(m.dport) && Quiet(m.dport) && m.bp.None? && WellFormed(m)
    ensures EscapeStart().pc == 0
  {
  }
}
