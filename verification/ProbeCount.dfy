/** The branch probe: correct and mispredicted outcomes sum to the control-flow instructions of the
    trace, whatever the timing. */
module ProbeCount {
  import opened Decoder
  import opened ByteMemory
  import opened Interpreter
  import opened Pipeline
  import opened Refinement
  import opened Hierarchy
  import opened Machine
  import opened CommitRefinement
  import opened CycleLaw
  import opened CycleCount
  import opened HaltMemory

  /** The instruction at a is a branch or a jump. */
  predicate ControlAt(prog: Bytes, a: Arch) {
    match InstructionAt(prog, a.pc).op
    case BEQ | BNE | BLT | BGE | BLTU | BGEU | JAL | JALR => true
    case _ => false
  }

  /** Branches and jumps among the first k instructions. */
  function Controls(prog: Bytes, a: Arch, k: nat): nat {
    if k == 0 then 0 else Controls(prog, a, k - 1) + Bit(ControlAt(prog, State(prog, a, k - 1)))
  }

  /** k instructions retired: the probe has seen those that left EX, and nothing else until the halting
      instruction is in WB. */
  predicate Probed(prog: Bytes, a: Arch, s: Pipe, k: nat) {
    var sum := s.correct + s.mispredicts;
    if !HaltInWb(s) then sum == Controls(prog, a, k + Bit(s.memWb.valid) + Bit(s.exMem.valid))
    else Controls(prog, a, k + 1) <= sum <= Controls(prog, a, k + 1) + 1
  }

  lemma ControlsStep(prog: Bytes, a: Arch, k: nat, more: bool)
    ensures Controls(prog, a, k + Bit(more)) == Controls(prog, a, k) + Bit(more && ControlAt(prog, State(prog, a, k)))
  {
    hide ControlAt, State;
  }

  lemma ControlIs(prog: Bytes, s: Pipe, a: Arch)
    requires s.idEx.valid ==> IdExFor(prog, s.idEx, a, s)
    ensures IsControl(s.idEx) == (s.idEx.valid && ControlAt(prog, a))
  {
    hide Resolve, Decode, Fetch, IsLoad;
  }

  lemma FlowSum(prog: Bytes, s: Pipe, i: Inputs)
    ensures var t := FlowStep(prog, s, i);
            t.correct + t.mispredicts == s.correct + s.mispredicts + Bit(IsControl(s.idEx))
  {
    hide MemOut, MemStore, ExecuteOut, RegsAfterWb, FetchOut, RedirectTarget, FetchNextPc, HaltAfter, Operand1,
         Operand2, LoadUse;
    hide ActuallyTaken, DecodeOut, IsControl, Redirects;
  }

  lemma StallSum(s: Pipe)
    ensures StallStep(s).correct == s.correct && StallStep(s).mispredicts == s.mispredicts
  {
    hide Capture, RegsAfterWb, HaltAfter;
  }

  /** The instruction that leaves EX counts as the trace says. */
  lemma LeavesEx(prog: Bytes, a: Arch, s: Pipe, k: nat)
    requires Inv(prog, State(prog, a, k), s) && !HaltInWb(s) && !HaltInMem(s)
    ensures var kM := k + Bit(s.memWb.valid) + Bit(s.exMem.valid);
      Controls(prog, a, kM + Bit(s.idEx.valid)) == Controls(prog, a, kM) + Bit(IsControl(s.idEx))
  {
    hide Inv, State, IsHalting, IdExFor, ExMemFor, FrontFor, IsControl, Controls, Exec, ControlAt;
    var kW := k + Bit(s.memWb.valid);
    InvParts(prog, State(prog, a, k), s);
    StateAfter(prog, a, k, s.memWb.valid);
    StateAfter(prog, a, kW, s.exMem.valid);
    ControlIs(prog, s, State(prog, a, kW + Bit(s.exMem.valid)));
    ControlsStep(prog, a, kW + Bit(s.exMem.valid), s.idEx.valid);
  }

  lemma ProbeFlow(prog: Bytes, a: Arch, m: Machine, k: nat)
    requires WellFormed(m) && m.pipe.halt.Running? && Inv(prog, State(prog, a, k), m.pipe) && !HaltInWb(m.pipe)
    requires !Stalling(m)
    requires Probed(prog, a, m.pipe, k)
    ensures Probed(prog, a, MachineTick(prog, m).pipe, k + Bit(m.pipe.memWb.valid))
  {
    hide WellFormed, Inv, State, IsHalting, InputsOf, Stalling, MachineTick, FlowStep, IsControl, Controls, HaltInWb,
         DataAsked, FetchAsked, Trained, ControlAt, InstructionAt, DecodeOut, ExecuteOut, MemOut;
    var s := m.pipe;
    FlowMachine(prog, m);
    FlowStages(prog, m);
    FlowSum(prog, s, InputsOf(m));
    if !HaltInMem(s) { LeavesEx(prog, a, s, k); }
  }

  lemma ProbeTick(prog: Bytes, a: Arch, m: Machine, k: nat)
    requires WellFormed(m) && m.pipe.halt.Running? && Inv(prog, State(prog, a, k), m.pipe) && !HaltInWb(m.pipe)
    requires Probed(prog, a, m.pipe, k)
    ensures Probed(prog, a, MachineTick(prog, m).pipe, k + Bit(m.pipe.memWb.valid))
  {
    hide WellFormed, Inv, State, IsHalting, InputsOf, Stalling, MachineTick, Controls, StallStep;
    if Stalling(m) {
      StallShape(prog, m);
      StallSum(m.pipe);
    } else {
      ProbeFlow(prog, a, m, k);
    }
  }

  lemma LastSum(prog: Bytes, m: Machine)
    requires WellFormed(m) && m.pipe.halt.Running?
    ensures var sum := m.pipe.correct + m.pipe.mispredicts; var t := MachineTick(prog, m).pipe;
      sum <= t.correct + t.mispredicts <= sum + 1
  {
    hide Shape, WellFormed, InputsOf, FlowStep, StallStep, IsControl, Trained, FetchAsked, DataAsked, Hierarchy.Tick;
    FlowSum(prog, m.pipe, InputsOf(m));
    StallSum(m.pipe);
  }

  lemma ProbeBase(prog: Bytes, a: Arch, m: Machine)
    requires Starts(a, m) && WellFormed(m)
    ensures Probed(prog, a, Ticks(prog, m, 0).pipe, 0)
  {
    hide Shape, WellFormed;
  }

  lemma {:induction false} ProbeHolds(prog: Bytes, a: Arch, m: Machine, n: nat)
    requires Starts(a, m) && Admissible(prog, a, m) && WellFormed(m) && Ticks(prog, m, n).pipe.halt.Running?
    ensures Probed(prog, a, Ticks(prog, m, n).pipe, |CommitTrace(prog, m, n)|)
  {
    hide WellFormed, Inv, HaltInWb, State, Admissible, MachineTick, Ticks, Starts, StoppedAt, Trace, Halted, Probed,
         CommitTrace, LedgerOf;
    hide LedgerTick, Retired;
    if n == 0 {
      ProbeBase(prog, a, m);
      NoTrace(prog, m);
    } else {
      LedgerStep(prog, m, n);
      var r := Ticks(prog, m, n - 1);
      if r.pipe.halt.Stopped? { StaysStopped(prog, r); }
      ProbeHolds(prog, a, m, n - 1);
      RunHolds(prog, a, m, n - 1);
      var k := |CommitTrace(prog, m, n - 1)|;
      StopsOnlyAtWb(prog, State(prog, a, k), r);
      RetiresOne(r);
      ProbeTick(prog, a, r, k);
    }
  }

  lemma NoTrace(prog: Bytes, m: Machine)
    requires WellFormed(m)
    ensures CommitTrace(prog, m, 0) == []
  {
  }

  lemma RetiresOne(m: Machine)
    requires m.pipe.halt.Running?
    ensures |Retired(m)| == Bit(m.pipe.memWb.valid)
  {
    hide CommitOf;
  }

  /** When the core stops, correct + mispredicted outcomes are the branches and jumps that retired, plus
      at most the two instructions behind the halting one that resolved in EX. */
  lemma ProbesSum(prog: Bytes, a: Arch, m: Machine, n: nat)
    requires Starts(a, m) && Admissible(prog, a, m) && Ticks(prog, m, n).pipe.halt.Stopped?
    ensures var s := Ticks(prog, m, n).pipe; var c := Controls(prog, a, s.instructions);
      c <= s.correct + s.mispredicts <= c + 2
  {
    hide WellFormed, Inv, HaltInWb, State, Admissible, MachineTick, Ticks, CommitTrace, Starts, StoppedAt, Trace,
         Halted, Controls, Retired;
    StartsRunning(a, m);
    var j := LastRunning(prog, m, n);
    var r := Ticks(prog, m, j);
    var k := |CommitTrace(prog, m, j)|;
    RunHolds(prog, a, m, j);
    RunHolds(prog, a, m, n);
    ProbeHolds(prog, a, m, j);
    StopsOnlyAtWb(prog, State(prog, a, k), r);
    RetiresAtHalt(r);
    LastSum(prog, r);
  }
}
