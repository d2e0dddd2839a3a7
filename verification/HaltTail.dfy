/** Behind the halting instruction: what the stages hold on the way to the tick that stops the core, and
    what the predictor has been told by then. */
module HaltTail {
  import opened Words
  import opened Decoder
  import opened ByteMemory
  import opened Interpreter
  import opened Pipeline
  import opened Refinement
  import opened Hierarchy
  import opened Predictor
  import opened Machine
  import opened CommitRefinement

  /** The interpreter stopped in f, stepped over the halting instruction.  EX has given that instruction an
      ALU result, and an illegal word may name a register for it, which forwarding then delivers. */
  function Beyond(prog: Bytes, f: Arch): Arch {
    var i := InstructionAt(prog, f.pc);
    Arch(Add(f.pc, 4), SetReg(f.regs, i.rd, AluResult(i.op, f.pc, i.imm, f.regs[i.rs1], f.regs[i.rs2])), f.mem)
  }

  /** What stands behind the halting instruction is the instruction beyond it, with its operands. */
  predicate TailInv(prog: Bytes, a: Arch, s: Pipe) {
    && (HaltInWb(s) && s.exMem.valid ==> ExMemFor(prog, s.exMem, Beyond(prog, a)))
    && (!HaltInWb(s) && HaltInMem(s) && s.idEx.valid ==>
          IdExFor(prog, s.idEx, Beyond(prog, After(prog, s.memWb.valid, a)), s))
  }

  /** What precedes a halting instruction in EX forwards to the one behind it. */
  lemma TailWindow(prog: Bytes, a: Arch, s: Pipe, i: Inputs, t: Pipe)
    requires Inv(prog, a, s) && !HaltInWb(s) && !HaltInMem(s) && !MemStalls(s.exMem, i.dataReady)
    requires t == FlowStep(prog, s, i)
    ensures t.memWb.valid == s.exMem.valid && !HaltInWb(t)
    ensures Window(prog, a, s.memWb, t.memWb, EX_BUBBLE)
  {
    hide FlowStep, Exec, MemWbFor, ExMemFor, Halted, FrontFor, IdExFor, MemOut, MemStore, Resolve, IsMemOp, IsHalting;
    hide FetchOut, FetchNextPc, DecodeOut, Redirects, RedirectTarget, LoadUse, RegsAfterWb, Operand1, Operand2;
    var aW := After(prog, s.memWb.valid, a);
    FlowBack(prog, a, s, i);
    ValidOp(prog, s.memWb, s.exMem, a);
    ValidOp(prog, t.memWb, s.exMem, aW);
  }

  /** A valid entry in MEM forwards to its own register and to no other. */
  lemma ThroughMem(reg: Reg, cur: Word, x: ExMem, wb: MemWb, prev: MemWb)
    requires x.valid && reg != 0
    ensures Resolve(reg, cur, x, wb, prev) == if x.rd == reg then x.aluOut else Resolve(reg, cur, EX_BUBBLE, wb, prev)
  {
  }

  lemma BeyondReg(prog: Bytes, f: Arch, x: ExMem, reg: Reg)
    requires ExMemFor(prog, x, f)
    ensures Beyond(prog, f).regs[reg] == if reg == 0 then 0 else if x.rd == reg then x.aluOut else f.regs[reg]
  {
    hide Decode, Fetch, AluResult;
  }

  lemma TailOperand(prog: Bytes, reg: Reg, a: Arch, w: MemWb, m: MemWb, x: ExMem)
    requires Window(prog, a, w, m, EX_BUBBLE)
    requires x.valid && ExMemFor(prog, x, After(prog, m.valid, After(prog, w.valid, a)))
    ensures Resolve(reg, a.regs[reg], x, m, w) == Beyond(prog, After(prog, m.valid, After(prog, w.valid, a))).regs[reg]
  {
    hide Window, Exec, Beyond, ExMemFor;
    var f := After(prog, m.valid, After(prog, w.valid, a));
    FreshOperand(prog, reg, a, w, m, EX_BUBBLE);
    BeyondReg(prog, f, x, reg);
    if reg != 0 { ThroughMem(reg, a.regs[reg], x, m, w); }
  }

  /** From ID into EX, behind a halting instruction that moves into MEM. */
  lemma TailDecode(prog: Bytes, a: Arch, w: MemWb, m: MemWb, x: ExMem, g: IfId, t: Pipe)
    requires Window(prog, a, w, m, EX_BUBBLE)
    requires var f := After(prog, m.valid, After(prog, w.valid, a));
      && x.valid && ExMemFor(prog, x, f) && !IsLoad(x.op)
      && g.valid && g.pc == Add(f.pc, 4) && g.raw == Fetch(prog, g.pc)
      && (g.predictedTaken ==> Predictable(Decode(g.raw).op))
    requires t.prev == w && t.memWb == m && t.exMem == x && t.idEx == DecodeOut(g, a.regs)
    ensures IdExFor(prog, t.idEx, Beyond(prog, After(prog, m.valid, After(prog, w.valid, a))), t)
  {
    hide Window, Exec, Resolve, Decode, Fetch, IsLoad, Predictable, SetReg, AluResult, ExMemFor;
    TailOperand(prog, Decode(g.raw).rs1, a, w, m, x);
    TailOperand(prog, Decode(g.raw).rs2, a, w, m, x);
  }

  /** Behind a halting instruction in EX comes the next word. */
  lemma TailFront(prog: Bytes, s: Pipe, f: Arch)
    requires s.idEx.valid && IdExFor(prog, s.idEx, f, s) && IsHalting(s.idEx.op)
    requires FrontFor(prog, s.idEx, s.ifId, s.pc, f)
    ensures !Redirecting(s) && !LoadUse(s.idEx, s.ifId) && Halted(prog, f)
    ensures s.ifId.valid ==> s.ifId.pc == Add(f.pc, 4) && s.ifId.raw == Fetch(prog, s.ifId.pc)
                             && (s.ifId.predictedTaken ==> Predictable(Decode(s.ifId.raw).op))
  {
    hide Decode, Fetch, Resolve, ActuallyTaken, Target, Predictable, Guess, RedirectTarget, Exec;
    FlowRedirect(prog, s.idEx, f, Operand1(s), Operand2(s));
  }

  /** The cycle in which a halting instruction leaves EX. */
  lemma TailEnters(prog: Bytes, a: Arch, s: Pipe, i: Inputs)
    requires Inv(prog, a, s) && !HaltInWb(s) && !HaltInMem(s) && !MemStalls(s.exMem, i.dataReady)
    requires s.idEx.valid && IsHalting(s.idEx.op)
    ensures TailInv(prog, After(prog, s.memWb.valid, a), FlowStep(prog, s, i))
  {
    hide FlowStep, Exec, Window, MemWbFor, ExMemFor, Halted, FrontFor, IdExFor, MemOut, MemStore, Resolve, IsMemOp,
         IsHalting, Predictable;
    hide FetchOut, FetchNextPc, DecodeOut, Redirecting, RedirectTarget, LoadUse, RegsAfterWb, AluResult,
         ActuallyTaken, Target, Inv, Fetch, Decode, Beyond;
    var t := FlowStep(prog, s, i);
    var f := After(prog, s.exMem.valid, After(prog, s.memWb.valid, a));
    InvFront(prog, a, s);
    TailFront(prog, s, f);
    TailWindow(prog, a, s, i, t);
    FlowShape(prog, s, i, t);
    HaltingLeavesEx(prog, s, f);
    if t.idEx.valid {
      InvRegs(prog, a, s);
      WasValid(s.ifId, s.regs);
      TailDecode(prog, a, s.memWb, t.memWb, t.exMem, s.ifId, t);
    }
  }

  lemma InvFront(prog: Bytes, a: Arch, s: Pipe)
    requires Inv(prog, a, s) && !HaltInWb(s) && !HaltInMem(s)
    ensures var f := After(prog, s.exMem.valid, After(prog, s.memWb.valid, a));
      (s.idEx.valid ==> IdExFor(prog, s.idEx, f, s)) && FrontFor(prog, s.idEx, s.ifId, s.pc, f)
  {
    hide BackInv, ExMemFor, IdExFor, FrontFor, Exec, IsHalting;
  }

  lemma InvRegs(prog: Bytes, a: Arch, s: Pipe)
    requires Inv(prog, a, s)
    ensures s.regs == a.regs
  {
    hide ExMemFor, IdExFor, FrontFor, Exec, IsHalting, MemWbFor;
  }

  lemma WasValid(g: IfId, regs: Regs)
    requires DecodeOut(g, regs).valid
    ensures g.valid
  {
    hide Decode;
  }

  lemma HaltingLeavesEx(prog: Bytes, s: Pipe, f: Arch)
    requires s.idEx.valid && IdExFor(prog, s.idEx, f, s) && IsHalting(s.idEx.op)
    ensures var x := ExecuteOut(s.idEx, Operand1(s), Operand2(s)); x.valid && ExMemFor(prog, x, f) && !IsLoad(x.op)
  {
    hide Fetch, Decode, Resolve, AluResult, ActuallyTaken, Target, Predictable, ExMemFor, IdExFor;
    FlowEx(prog, s.idEx, f, s);
  }

  /** The cycle in which a halting instruction leaves MEM. */
  lemma TailAdvances(prog: Bytes, a: Arch, s: Pipe, i: Inputs)
    requires Inv(prog, a, s) && TailInv(prog, a, s) && !HaltInWb(s) && HaltInMem(s)
    ensures TailInv(prog, After(prog, s.memWb.valid, a), FlowStep(prog, s, i))
  {
    hide FlowStep, Exec, ExMemFor, IdExFor, Beyond, ExecuteOut, IsHalting, MemOut, MemStore, Inv, Resolve;
    hide FetchOut, FetchNextPc, DecodeOut, Redirecting, RedirectTarget, LoadUse, RegsAfterWb;
    var t := FlowStep(prog, s, i);
    FlowShape(prog, s, i, t);
    HaltMoves(s, i.dataReady);
    if s.idEx.valid { FlowEx(prog, s.idEx, Beyond(prog, After(prog, s.memWb.valid, a)), s); }
    NoEntry(s);
  }

  lemma NoEntry(s: Pipe)
    ensures ExecuteOut(s.idEx, Operand1(s), Operand2(s)).valid == s.idEx.valid
  {
    hide Resolve, AluResult, ActuallyTaken, Target;
  }

  lemma HaltMoves(s: Pipe, ready: bool)
    requires HaltInMem(s)
    ensures var w := MemOut(s.exMem, s.mem, ready); w.valid && IsHalting(w.op) && !MemStalls(s.exMem, ready)
  {
    MemOutShape(s.exMem, s.mem, ready);
    hide MemOut, MemStore;
  }

  lemma TailStays(prog: Bytes, a: Arch, s: Pipe, i: Inputs)
    requires Inv(prog, a, s) && !HaltInWb(s) && !HaltInMem(s) && !MemStalls(s.exMem, i.dataReady)
    requires !(s.idEx.valid && IsHalting(s.idEx.op))
    ensures TailInv(prog, After(prog, s.memWb.valid, a), FlowStep(prog, s, i))
  {
    hide FlowStep, Exec, ExMemFor, IdExFor, Beyond, IsHalting, MemOut, MemStore, Operand1, Operand2, Inv, AluResult,
         ActuallyTaken, Target;
    hide FetchOut, FetchNextPc, DecodeOut, Redirecting, RedirectTarget, LoadUse, RegsAfterWb;
    TailWindow(prog, a, s, i, FlowStep(prog, s, i));
    FlowShape(prog, s, i, FlowStep(prog, s, i));
  }

  lemma TailStep(prog: Bytes, a: Arch, s: Pipe, i: Inputs)
    requires Inv(prog, a, s) && TailInv(prog, a, s) && !HaltInWb(s) && s.halt.Running?
    ensures TailInv(prog, After(prog, s.memWb.valid, a), Step(prog, s, i))
  {
    hide FlowStep, StallStep, Exec, IsHalting, Inv, IsMemOp, TailInv, HaltInWb;
    if MemStalls(s.exMem, i.dataReady) {
      TailStall(prog, After(prog, s.memWb.valid, a), s, i.dataReady);
    } else if HaltInMem(s) {
      TailAdvances(prog, a, s, i);
    } else if s.idEx.valid && IsHalting(s.idEx.op) {
      TailEnters(prog, a, s, i);
    } else {
      TailStays(prog, a, s, i);
    }
  }

  lemma TailStall(prog: Bytes, a: Arch, s: Pipe, ready: bool)
    requires MemStalls(s.exMem, ready)
    ensures TailInv(prog, a, StallStep(s))
  {
    NoStallForHalt(s, ready);
    hide ExMemFor, IdExFor, Beyond, IsHalting, IsMemOp, Capture, RegsAfterWb, HaltAfter, Exec;
  }

  // ---- Runs ----

  lemma TailBase(prog: Bytes, a: Arch, m: Machine)
    requires Starts(a, m) && WellFormed(m)
    ensures TailInv(prog, State(prog, a, 0), Ticks(prog, m, 0).pipe)
  {
    hide Shape, WellFormed, ExMemFor, IdExFor, Beyond;
  }

  /** A tick that keeps the core running keeps what is behind a halting instruction. */
  lemma TailTick(prog: Bytes, a: Arch, m: Machine)
    requires MachineInv(prog, a, m) && TailInv(prog, a, m.pipe) && MachineTick(prog, m).pipe.halt.Running?
    ensures TailInv(prog, After(prog, m.pipe.memWb.valid, a), MachineTick(prog, m).pipe)
  {
    hide Inv, HaltInWb, Halted, TailInv, InputsOf, Step, TablesOk, Shape, AlignedRun, After;
    RunningAfter(prog, a, m);
    ValidOpWb(prog, a, m.pipe);
    TickShape(prog, m);
    TailStep(prog, a, m.pipe, InputsOf(m));
  }

  /** In every reachable running state. */
  lemma {:induction false} TailHolds(prog: Bytes, a: Arch, m: Machine, n: nat)
    requires Starts(a, m) && Admissible(prog, a, m) && WellFormed(m) && Ticks(prog, m, n).pipe.halt.Running?
    ensures TailInv(prog, State(prog, a, |CommitTrace(prog, m, n)|), Ticks(prog, m, n).pipe)
  {
    hide WellFormed, Inv, HaltInWb, State, Admissible, MachineTick, Ticks, Starts, StoppedAt, Trace, Halted, TailInv,
         InputsOf, Step;
    hide Exec, TablesOk, Shape, IsHalting, HaltInMem, AlignedRun, Stalling, NewTables, MachineInv;
    if n == 0 {
      TailBase(prog, a, m);
    } else {
      TicksStep(prog, m, n);
      var r := Ticks(prog, m, n - 1);
      if r.pipe.halt.Stopped? { StaysStopped(prog, r); }
      TailHolds(prog, a, m, n - 1);
      RunHolds(prog, a, m, n - 1);
      var k := |CommitTrace(prog, m, n - 1)|;
      TailTick(prog, State(prog, a, k), r);
      TraceStep(prog, a, k);
    }
  }

  // ---- The predictor ----

  /** The one instruction that trains behind a halting one is the next word, which trains its own target. */
  lemma TrainBehind(prog: Bytes, a: Arch, m: Machine)
    requires MachineInv(prog, a, m) && TailInv(prog, a, m.pipe) && !HaltInWb(m.pipe) && HaltInMem(m.pipe) && m.bp.Some?
    ensures TablesOk(prog, Trained(m.bp.value, m.pipe))
  {
    hide Inv, Shape, AlignedRun, TablesOk, Exec, IdExFor, IsHalting, ExMemFor, SetReg, AluResult, Decode, Fetch;
    var s := m.pipe;
    if s.idEx.valid {
      AlignedAhead(prog, a);
      AlignedAhead(prog, After(prog, s.memWb.valid, a));
      TrainOk(prog, Beyond(prog, After(prog, s.memWb.valid, a)), m.bp.value, s);
    }
  }

  lemma TablesTick(prog: Bytes, a: Arch, m: Machine)
    requires MachineInv(prog, a, m) && TailInv(prog, a, m.pipe) && !HaltInWb(m.pipe)
    ensures var n := MachineTick(prog, m); n.bp.Some? ==> TablesOk(prog, n.bp.value)
  {
    hide Inv, Shape, Step, Trained, InputsOf, TablesOk, MachineTick, AlignedRun, HaltInWb, HaltInMem, MemStalls,
         TailInv;
    TickShape(prog, m);
    if m.bp.Some? {
      if HaltInMem(m.pipe) { TrainBehind(prog, a, m); } else { TablesStep(prog, a, m); }
    }
  }

  lemma {:induction false} TablesHold(prog: Bytes, a: Arch, m: Machine, n: nat)
    requires Starts(a, m) && Admissible(prog, a, m) && WellFormed(m) && Ticks(prog, m, n).pipe.halt.Running?
    ensures var r := Ticks(prog, m, n); r.bp.Some? ==> TablesOk(prog, r.bp.value)
  {
    hide WellFormed, Inv, HaltInWb, State, Admissible, MachineTick, Ticks, Starts, StoppedAt, Trace, Halted, TailInv;
    hide TablesOk, CommitTrace;
    if n == 0 {
      TablesBase(prog, a, m);
    } else {
      TicksStep(prog, m, n);
      var r := Ticks(prog, m, n - 1);
      if r.pipe.halt.Stopped? { StaysStopped(prog, r); }
      RunHolds(prog, a, m, n - 1);
      TailHolds(prog, a, m, n - 1);
      var k := |CommitTrace(prog, m, n - 1)|;
      RunningAfter(prog, State(prog, a, k), r);
      ValidOpWb(prog, State(prog, a, k), r.pipe);
      TablesTick(prog, State(prog, a, k), r);
    }
  }

  lemma TablesBase(prog: Bytes, a: Arch, m: Machine)
    requires Starts(a, m) && WellFormed(m)
    ensures var r := Ticks(prog, m, 0); r.bp.Some? ==> TablesOk(prog, r.bp.value)
  {
    hide Shape, WellFormed, TablesOk, NewTables;
    if m.bp.Some? { NewTablesOk(prog, m.bp.value.bhtBits, m.bp.value.btbBits); }
  }

  /** Predictor soundness in every reachable running state: a taken prediction at an aligned pc names the
      target of the conditional branch or JAL there. */
  lemma PredictorSoundness(prog: Bytes, a: Arch, m: Machine, n: nat, pc: Word)
    requires Starts(a, m) && Admissible(prog, a, m) && m.bp.Some? && pc % 4 == 0
    requires Ticks(prog, m, n).pipe.halt.Running?
    ensures var t := Ticks(prog, m, n).bp; t.Some? && Sound(prog, pc, Predict(t.value, pc))
  {
    hide Shape, Ticks, Predict, Admissible, TablesOk;
    TablesHold(prog, a, m, n);
    KeepsPredictor(prog, m, n);
    hide Starts, WellFormed;
    PredictSound(prog, Ticks(prog, m, n).bp.value, pc);
  }
}
