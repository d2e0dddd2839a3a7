/** The pipeline refines the interpreter: a simulation invariant between the interpreter's state
    `a` (everything retired so far) and the pipeline state, and its preservation by every cycle,
    whatever the memories and the predictor answer. */
module Refinement {
  import opened Words
  import opened Encoding
  import opened Decoder
  import opened ByteMemory
  import opened Interpreter
  import opened Pipeline

  // ---- The stages compute what the ISA says ----

  /** The instructions whose taken target is pc + imm. */
  predicate Predictable(op: Op) { IsCondBranch(op) || op.JAL? }

  lemma WritebackMatches(op: Op)
    ensures HasWriteback(op) == WritesRd(op)
    ensures IsLoad(op) ==> WritesRd(op)
  {
  }

  /** EX gives every instruction its ISA value or effective address... */
  lemma ValueMatches(i: Instruction, pc: Word, v1: Word, v2: Word, m: Bytes)
    ensures IsMemOp(i.op) ==> AluResult(i.op, pc, i.imm, v1, v2) == Effective(i, v1)
    ensures WritesRd(i.op) && !IsLoad(i.op) ==> AluResult(i.op, pc, i.imm, v1, v2) == RdValue(i, pc, v1, v2, m)
  {
    hide Pow2, Signed, ToWord, BitAnd, BitOr, BitXor;
  }

  /** ... and finds its ISA successor. */
  lemma NextMatches(i: Instruction, pc: Word, v1: Word, v2: Word)
    ensures (if ActuallyTaken(i.op, v1, v2) then Target(i.op, pc, i.imm, v1) else Add(pc, 4)) == NextPc(i, pc, v1, v2)
    ensures ActuallyTaken(i.op, v1, v2) ==> Predictable(i.op) || i.op.JALR?
  {
    hide Signed, ToWord;
  }

  lemma LoadMatches(i: Instruction, pc: Word, v1: Word, v2: Word, m: Bytes)
    requires IsLoad(i.op)
    ensures LoadedValue(i.op, m, Effective(i, v1)) == RdValue(i, pc, v1, v2, m)
  {
    hide LoadByte, LoadHalf, LoadWord, ToWord;
    Pow2Values();
  }

  lemma StoreMatches(i: Instruction, m: ExMem, v1: Word, v2: Word, mem: Bytes)
    requires m.valid && m.op == i.op && m.rs2Val == v2
    requires IsMemOp(i.op) ==> m.aluOut == Effective(i, v1)
    ensures MemStore(m, mem, true) == StoreResult(i, v1, v2, mem)
  {
    hide StoreByte, StoreHalf, StoreWord, ToWord;
    match i.op
    case SB => case SH => case SW => case _ =>
  }

  lemma RecordMatches(i: Instruction, m: ExMem, pc: Word, v1: Word, v2: Word, mem: Bytes)
    requires m.valid && m.op == i.op && m.rs2Val == v2 && m.aluOut == AluResult(i.op, pc, i.imm, v1, v2)
    ensures var w := MemOut(m, mem, true);
      && w.valid && w.pc == m.pc && w.raw == m.raw && w.op == m.op && w.rd == m.rd
      && (HasWriteback(i.op) ==> w.wbVal == RdValue(i, pc, v1, v2, mem))
      && CommitOf(w).access == AccessFor(i, v1, v2)
  {
    WritebackMatches(i.op);
    ValueMatches(i, pc, v1, v2, mem);
    if IsLoad(i.op) { LoadMatches(i, pc, v1, v2, mem); }
    hide AluResult, LoadedValue, RdValue, ToWord, WritesRd, HasWriteback;
    match i.op
    case SB => case SH => case SW => case _ =>
  }

  /** MEM commits what the ISA says ... */
  lemma CommitMatches(prog: Bytes, m: ExMem, a: Arch)
    requires m.valid && ExMemFor(prog, m, a)
    ensures MemWbFor(prog, MemOut(m, a.mem, true), a)
  {
    var i := InstructionAt(prog, a.pc);
    WritebackMatches(i.op);
    RecordMatches(i, m, a.pc, a.regs[i.rs1], a.regs[i.rs2], a.mem);
    hide Decode, AluResult, RdValue, NextPc, SetReg, ToWord, Fetch, WritesRd, HasWriteback, MemOut, AccessFor, IsLoad;
  }

  /** ... and writes what the ISA says. */
  lemma MemoryMatches(prog: Bytes, m: ExMem, a: Arch)
    requires m.valid && ExMemFor(prog, m, a)
    ensures MemStore(m, a.mem, true) == Exec(prog, a).mem
  {
    var i := InstructionAt(prog, a.pc);
    var v1 := a.regs[i.rs1];
    var v2 := a.regs[i.rs2];
    ValueMatches(i, a.pc, v1, v2, a.mem);
    StoreMatches(i, m, v1, v2, a.mem);
    assert IsHalting(i.op) ==> StoreResult(i, v1, v2, a.mem) == a.mem;
    hide Decode, AluResult, RdValue, NextPc, SetReg, ToWord, Fetch, WritesRd, MemStore, StoreResult, IsHalting,
         Effective;
  }

  // ---- The invariant ----

  function After(prog: Bytes, valid: bool, a: Arch): Arch { if valid then Exec(prog, a) else a }

  function InstrOf(x: IdEx): Instruction { Instruction(x.op, x.rd, x.rs1, x.rs2, x.imm) }

  /** m is the executed instruction at a. */
  predicate ExMemFor(prog: Bytes, m: ExMem, a: Arch) {
    var i := InstructionAt(prog, a.pc);
    && m.pc == a.pc && m.raw == Fetch(prog, a.pc) && m.op == i.op && m.rd == i.rd
    && m.aluOut == AluResult(i.op, a.pc, i.imm, a.regs[i.rs1], a.regs[i.rs2])
    && m.rs2Val == a.regs[i.rs2]
  }

  /** w is the instruction at a, ready to retire. */
  predicate MemWbFor(prog: Bytes, w: MemWb, a: Arch) {
    w.rd == InstructionAt(prog, a.pc).rd && CommitOf(w) == CommitAt(prog, a)
  }

  /** x is the decoded instruction at a, and its operands resolve to a's registers. */
  predicate IdExFor(prog: Bytes, x: IdEx, a: Arch, s: Pipe)
  {
    && x.pc == a.pc && x.raw == Fetch(prog, a.pc) && InstrOf(x) == Decode(x.raw)
    && (x.predictedTaken ==> Predictable(x.op))
    && Resolve(x.rs1, x.rs1Val, s.exMem, s.memWb, s.prev) == a.regs[x.rs1]
    && Resolve(x.rs2, x.rs2Val, s.exMem, s.memWb, s.prev) == a.regs[x.rs2]
    && (s.exMem.valid && IsLoad(s.exMem.op) && s.exMem.rd != 0 ==> s.exMem.rd != x.rs1 && s.exMem.rd != x.rs2)
  }

  /** Where fetch went after an instruction, given its predicted direction. */
  function Guess(pc: Word, raw: Raw, taken: bool): Word {
    Add(pc, if taken then ToWord(Decode(raw).imm) else 4)
  }

  function ActualNext(prog: Bytes, a: Arch): Word {
    if Halted(prog, a) then Add(a.pc, 4) else Exec(prog, a).pc
  }

  /** The words behind x are the right ones whenever x was predicted right. */
  predicate FrontFor(prog: Bytes, x: IdEx, f: IfId, pc: Word, a: Arch) {
    var next := if x.valid then ActualNext(prog, a) else a.pc;
    (x.valid ==> Guess(x.pc, x.raw, x.predictedTaken) == next) ==>
      && (f.valid ==> f.pc == next && f.raw == Fetch(prog, next)
                      && (f.predictedTaken ==> Predictable(Decode(f.raw).op)))
      && pc == if f.valid then Guess(f.pc, f.raw, f.predictedTaken) else next
  }

  predicate HaltInWb(s: Pipe) { s.memWb.valid && IsHalting(s.memWb.op) }
  predicate HaltInMem(s: Pipe) { s.exMem.valid && IsHalting(s.exMem.op) }

  predicate BackInv(prog: Bytes, a: Arch, s: Pipe) {
    && s.regs == a.regs
    && s.mem == After(prog, s.memWb.valid, a).mem
    && (s.memWb.valid ==> MemWbFor(prog, s.memWb, a))
  }

  predicate Inv(prog: Bytes, a: Arch, s: Pipe) {
    var aW := After(prog, s.memWb.valid, a);
    var aM := After(prog, s.exMem.valid, aW);
    && BackInv(prog, a, s)
    && (!HaltInWb(s) ==> (s.exMem.valid ==> ExMemFor(prog, s.exMem, aW)))
    && (!HaltInWb(s) && !HaltInMem(s) ==>
          && (s.idEx.valid ==> IdExFor(prog, s.idEx, aM, s))
          && FrontFor(prog, s.idEx, s.ifId, s.pc, aM))
  }

  /** A taken prediction names the target of the branch or JAL at that pc. */
  predicate Sound(prog: Bytes, pc: Word, p: Prediction) {
    p.taken ==> Predictable(InstructionAt(prog, pc).op) && p.target == Guess(pc, Fetch(prog, pc), true)
  }

  ghost predicate AlignedRun(prog: Bytes, a: Arch) { forall n: nat :: State(prog, a, n).pc % 4 == 0 }

  lemma {:induction false} StateShift(prog: Bytes, a: Arch, n: nat)
    ensures State(prog, Exec(prog, a), n) == State(prog, a, n + 1)
  {
    hide Exec;
    if n > 0 { StateShift(prog, a, n - 1); }
  }

  lemma AlignedAhead(prog: Bytes, a: Arch)
    requires AlignedRun(prog, a)
    ensures a.pc % 4 == 0 && AlignedRun(prog, Exec(prog, a))
  {
    hide Exec;
    assert State(prog, a, 0).pc % 4 == 0;
    forall n: nat ensures State(prog, Exec(prog, a), n).pc % 4 == 0 { StateShift(prog, a, n); }
  }

  // ---- Forwarding ----

  /** For registers other than x0: a retiring entry carries its register's new value. */
  lemma WbForwards(prog: Bytes, w: MemWb, a: Arch, reg: Reg)
    requires MemWbFor(prog, w, a) && !Halted(prog, a) && reg != 0
    ensures w.rd == reg ==> w.wbVal == Exec(prog, a).regs[reg]
    ensures w.rd != reg ==> a.regs[reg] == Exec(prog, a).regs[reg]
  {
    var raw := Fetch(prog, a.pc);
    WritebackMatches(w.op);
    if !HasWriteback(w.op) { DecodeDestination(raw); }
    hide Decode, RdValue, NextPc, StoreResult, AccessFor, Fetch, WritesRd, HasWriteback, Effective;
  }

  lemma ExForwards(prog: Bytes, m: ExMem, a: Arch, reg: Reg)
    requires ExMemFor(prog, m, a) && !Halted(prog, a) && reg != 0
    requires !(IsLoad(m.op) && m.rd == reg)
    ensures m.rd == reg ==> m.aluOut == Exec(prog, a).regs[reg]
    ensures m.rd != reg ==> a.regs[reg] == Exec(prog, a).regs[reg]
  {
    var raw := Fetch(prog, a.pc);
    var i := Decode(raw);
    WritebackMatches(m.op);
    ValueMatches(i, a.pc, a.regs[i.rs1], a.regs[i.rs2], a.mem);
    if !HasWriteback(m.op) { DecodeDestination(raw); }
    hide Decode, RdValue, NextPc, StoreResult, AccessFor, Fetch, WritesRd, HasWriteback, Effective, AluResult;
  }

  lemma WritebackRegs(prog: Bytes, w: MemWb, a: Arch)
    requires w.valid && MemWbFor(prog, w, a)
    ensures RegsAfterWb(a.regs, w) == Exec(prog, a).regs
    ensures IsHalting(w.op) <==> Halted(prog, a)
  {
    WritebackMatches(w.op);
    hide Decode, RdValue, NextPc, StoreResult, AccessFor, Fetch, WritesRd, Effective;
  }

  /** The three producers in flight: w at a, then m, then x, none of them halting. */
  predicate Window(prog: Bytes, a: Arch, w: MemWb, m: MemWb, x: ExMem) {
    var aW := After(prog, w.valid, a);
    var aM := After(prog, m.valid, aW);
    && (w.valid ==> MemWbFor(prog, w, a) && !Halted(prog, a))
    && (m.valid ==> MemWbFor(prog, m, aW) && !Halted(prog, aW))
    && (x.valid ==> ExMemFor(prog, x, aM) && !Halted(prog, aM))
  }

  /** The operands a freshly decoded instruction will see in EX: the three producers ahead of it
      are W (about to retire), M and X, in program order, and the register file is one step behind W. */
  lemma FreshOperand(prog: Bytes, reg: Reg, a: Arch, w: MemWb, m: MemWb, x: ExMem)
    requires Window(prog, a, w, m, x)
    requires x.valid && IsLoad(x.op) && x.rd != 0 ==> x.rd != reg
    ensures var aX := After(prog, x.valid, After(prog, m.valid, After(prog, w.valid, a)));
      Resolve(reg, a.regs[reg], x, m, w) == aX.regs[reg]
  {
    var aW := After(prog, w.valid, a);
    var aM := After(prog, m.valid, aW);
    if reg != 0 {
      if w.valid { WbForwards(prog, w, a, reg); }
      if m.valid { WbForwards(prog, m, aW, reg); }
      if x.valid { ExForwards(prog, x, aM, reg); }
    }
    hide Exec, ExMemFor, MemWbFor, Halted, IsLoad;
  }

  /** Capturing an operand on a stall cycle keeps its value when W drains out of the window. */
  lemma CapturedOperand(reg: Reg, cur: Word, m: ExMem, w: MemWb, prev: MemWb)
    requires m.valid && m.rd != 0 ==> m.rd != reg
    ensures Resolve(reg, Resolve(reg, cur, m, w, prev), m, MEM_BUBBLE, w) == Resolve(reg, cur, m, w, prev)
  {
  }

  // ---- A stalled cycle ----

  lemma StallBack(prog: Bytes, a: Arch, s: Pipe)
    requires Inv(prog, a, s)
    ensures BackInv(prog, After(prog, s.memWb.valid, a), StallStep(s))
  {
    if s.memWb.valid { WritebackRegs(prog, s.memWb, a); }
    hide Exec, MemWbFor, ExMemFor, FrontFor, IdExFor, RegsAfterWb, HaltAfter, Capture, IsHalting;
  }

  lemma StallEx(prog: Bytes, s: Pipe, a: Arch)
    requires s.idEx.valid && IdExFor(prog, s.idEx, a, s)
    requires s.exMem.valid && (s.exMem.rd != 0 ==> IsLoad(s.exMem.op))
    ensures IdExFor(prog, StallStep(s).idEx, a, StallStep(s))
  {
    CapturedOperand(s.idEx.rs1, s.idEx.rs1Val, s.exMem, s.memWb, s.prev);
    CapturedOperand(s.idEx.rs2, s.idEx.rs2Val, s.exMem, s.memWb, s.prev);
    hide Resolve, Decode, Fetch, IsLoad, RegsAfterWb, HaltAfter, Predictable;
  }

  lemma StallFront(prog: Bytes, s: Pipe, a: Arch)
    requires FrontFor(prog, s.idEx, s.ifId, s.pc, a)
    ensures FrontFor(prog, StallStep(s).idEx, StallStep(s).ifId, StallStep(s).pc, a)
    ensures StallStep(s).exMem == s.exMem && !StallStep(s).memWb.valid && StallStep(s).idEx.valid == s.idEx.valid
  {
    hide Guess, Fetch, Decode, ActualNext, Resolve, RegsAfterWb, HaltAfter, Predictable;
  }

  lemma StallPreserves(prog: Bytes, a: Arch, s: Pipe)
    requires Inv(prog, a, s) && !HaltInWb(s) && s.exMem.valid && IsMemOp(s.exMem.op)
    ensures Inv(prog, After(prog, s.memWb.valid, a), StallStep(s))
  {
    hide Exec, MemWbFor, ExMemFor, FrontFor, IdExFor, RegsAfterWb, IsMemOp, BackInv, IsHalting, IsLoad, HaltAfter,
         Resolve, StallStep;
    var aW := After(prog, s.memWb.valid, a);
    var aM := After(prog, s.exMem.valid, aW);
    StallBack(prog, a, s);
    MemOpFacts(prog, s.exMem, aW);
    StallFront(prog, s, aM);
    if s.idEx.valid { StallEx(prog, s, aM); }
  }

  /** A memory operation does not halt, and a store has rd == 0. */
  lemma MemOpFacts(prog: Bytes, m: ExMem, a: Arch)
    requires ExMemFor(prog, m, a) && IsMemOp(m.op)
    ensures !IsHalting(m.op) && !Halted(prog, a)
    ensures m.rd != 0 ==> IsLoad(m.op)
  {
    NoDestination(Fetch(prog, a.pc));
    hide Decode, Fetch, AluResult;
  }

  lemma NoDestination(w: Raw)
    ensures !HasWriteback(Decode(w).op) && !Decode(w).op.ILLEGAL? ==> Decode(w).rd == 0
  {
    if !HasWriteback(Decode(w).op) && !Decode(w).op.ILLEGAL? { DecodeDestination(w); }
  }

  // ---- A flowing cycle ----

  lemma FlowBack(prog: Bytes, a: Arch, s: Pipe, i: Inputs)
    requires Inv(prog, a, s) && !HaltInWb(s) && !MemStalls(s.exMem, i.dataReady)
    ensures var t := FlowStep(prog, s, i);
      && BackInv(prog, After(prog, s.memWb.valid, a), t)
      && t.memWb.valid == s.exMem.valid && (s.exMem.valid ==> t.memWb.op == s.exMem.op)
  {
    var aW := After(prog, s.memWb.valid, a);
    if s.memWb.valid { WritebackRegs(prog, s.memWb, a); }
    if s.exMem.valid {
      CommitMatches(prog, s.exMem, aW);
      MemoryMatches(prog, s.exMem, aW);
      MemOutShape(s.exMem, s.mem, i.dataReady);
    }
    hide Exec, MemWbFor, ExMemFor, FrontFor, IdExFor, RegsAfterWb, IsMemOp, MemOut, MemStore;
    hide Redirects, RedirectTarget, FetchNextPc, FetchOut, DecodeOut, ExecuteOut, Resolve, LoadUse, IsControl,
         HaltAfter;
  }

  lemma MemOutShape(m: ExMem, mem: Bytes, ready: bool)
    requires m.valid && !MemStalls(m, ready)
    ensures MemOut(m, mem, ready) == MemOut(m, mem, true) && MemStore(m, mem, ready) == MemStore(m, mem, true)
    ensures MemOut(m, mem, ready).valid && MemOut(m, mem, ready).op == m.op
  {
    hide LoadedValue, StoreByte, StoreHalf, StoreWord;
  }

  /** EX hands MEM the executed instruction. */
  lemma FlowEx(prog: Bytes, x: IdEx, a: Arch, s: Pipe)
    requires x.valid && IdExFor(prog, x, a, s)
    requires Operand1(s) == Resolve(x.rs1, x.rs1Val, s.exMem, s.memWb, s.prev)
    requires Operand2(s) == Resolve(x.rs2, x.rs2Val, s.exMem, s.memWb, s.prev)
    ensures ExMemFor(prog, ExecuteOut(x, Operand1(s), Operand2(s)), a)
  {
    hide Resolve, Decode, Fetch, AluResult, ActuallyTaken, Target, IsLoad, Predictable, Operand1, Operand2;
  }

  /** EX redirects exactly when the guess that fetch followed cannot be trusted, and to the ISA successor. */
  lemma FlowRedirect(prog: Bytes, x: IdEx, a: Arch, v1: Word, v2: Word)
    requires x.valid && x.pc == a.pc && x.raw == Fetch(prog, a.pc) && InstrOf(x) == Decode(x.raw)
    requires x.predictedTaken ==> Predictable(x.op)
    requires v1 == a.regs[x.rs1] && v2 == a.regs[x.rs2]
    ensures Redirects(x, v1, v2) && !IsHalting(x.op) ==> RedirectTarget(x, v1, v2) == ActualNext(prog, a)
    ensures !Redirects(x, v1, v2) ==> Guess(x.pc, x.raw, x.predictedTaken) == ActualNext(prog, a)
    ensures IsHalting(x.op) ==> !Redirects(x, v1, v2)
    ensures IsLoad(x.op) ==> !Redirects(x, v1, v2)
  {
    var i := Decode(x.raw);
    NextMatches(i, a.pc, v1, v2);
    TakenOps(x.op, v1, v2);
    hide Decode, Fetch, NextPc, RdValue, StoreResult, WritesRd, SetReg;
    hide ToWord;
  }

  lemma TakenOps(op: Op, v1: Word, v2: Word)
    ensures IsHalting(op) || IsLoad(op) ==> !ActuallyTaken(op, v1, v2) && !Predictable(op)
    ensures ActuallyTaken(op, v1, v2) && Predictable(op) ==> !op.JALR?
  {
  }

  /** ID hands EX the next instruction, with operands that will resolve there. */
  lemma FlowDecode(prog: Bytes, a: Arch, w: MemWb, m: MemWb, x: ExMem, f: IfId, t: Pipe)
    requires Window(prog, a, w, m, x)
    requires t.prev == w && t.memWb == m && t.exMem == x && t.idEx == DecodeOut(f, a.regs)
    requires f.valid && f.raw == Fetch(prog, f.pc) && (f.predictedTaken ==> Predictable(Decode(f.raw).op))
    requires x.valid && IsLoad(x.op) && x.rd != 0 ==> x.rd != Rs1Field(f.raw) && x.rd != Rs2Field(f.raw)
    ensures var aX := After(prog, x.valid, After(prog, m.valid, After(prog, w.valid, a)));
      f.pc == aX.pc ==> IdExFor(prog, t.idEx, aX, t)
  {
    var d := Decode(f.raw);
    DecodeSources(f.raw);
    FreshOperand(prog, d.rs1, a, w, m, x);
    FreshOperand(prog, d.rs2, a, w, m, x);
    hide Decode, Fetch, Rs1Field, Rs2Field, Exec, Window, Resolve, IsLoad, Predictable;
  }

  /** IF fetches the next word of the path it is on. */
  lemma FlowFetch(prog: Bytes, pc: Word, next: Word, i: Inputs)
    requires pc == next ==> Sound(prog, pc, i.prediction)
    ensures var f := FetchOut(prog, pc, i);
      pc == next ==>
        && (f.valid ==>
              f.pc == next && f.raw == Fetch(prog, next)
              && (f.predictedTaken ==> Predictable(Decode(f.raw).op)))
        && FetchNextPc(pc, i) == if f.valid then Guess(f.pc, f.raw, f.predictedTaken) else next
  {
    hide Decode, Fetch, ToWord, Predictable;
  }

  lemma AlignedNext(prog: Bytes, a: Arch)
    requires AlignedRun(prog, a)
    ensures a.pc % 4 == 0 && ActualNext(prog, a) % 4 == 0
  {
    hide Exec, AlignedRun, InstructionAt, IsHalting;
    AlignedAhead(prog, a);
    AlignedAhead(prog, Exec(prog, a));
  }

  /** Once x leaves EX without a redirect, what is behind it is on the path. */
  lemma FrontArrives(prog: Bytes, x: IdEx, f: IfId, pc: Word, a: Arch)
    requires FrontFor(prog, x, f, pc, a)
    requires x.valid ==> !Halted(prog, a) && Guess(x.pc, x.raw, x.predictedTaken) == ActualNext(prog, a)
    ensures FrontFor(prog, ID_BUBBLE, f, pc, After(prog, x.valid, a))
  {
    hide Exec, Halted, Guess, Fetch, Decode, Predictable;
  }

  /** The front moves up by one stage. */
  lemma FrontMoves(prog: Bytes, f: IfId, pc: Word, i: Inputs, a: Arch, regs: Regs)
    requires FrontFor(prog, ID_BUBBLE, f, pc, a)
    requires AlignedRun(prog, a) || Sound(prog, pc, i.prediction)
    requires pc % 4 == 0 ==> Sound(prog, pc, i.prediction)
    ensures FrontFor(prog, DecodeOut(f, regs), FetchOut(prog, pc, i), FetchNextPc(pc, i), a)
  {
    if AlignedRun(prog, a) { AlignedNext(prog, a); }
    FlowFetch(prog, pc, if f.valid then ActualNext(prog, a) else a.pc, i);
    hide Exec, Halted, ActualNext, FetchOut, FetchNextPc, Guess, Fetch, Decode, AlignedRun, Sound, Predictable;
  }

  /** The front of the pipeline after a cycle in which EX did not hold a halting instruction. */
  lemma FlowFront(prog: Bytes, s: Pipe, i: Inputs, a: Arch, t: Pipe)
    requires s.idEx.valid ==> IdExFor(prog, s.idEx, a, s) && !IsHalting(s.idEx.op)
    requires FrontFor(prog, s.idEx, s.ifId, s.pc, a)
    requires t == FlowStep(prog, s, i)
    requires AlignedRun(prog, a) || Sound(prog, s.pc, i.prediction)
    requires s.pc % 4 == 0 ==> Sound(prog, s.pc, i.prediction)
    ensures FrontFor(prog, t.idEx, t.ifId, t.pc, After(prog, s.idEx.valid, a))
    ensures t.idEx.valid ==> FrontFor(prog, ID_BUBBLE, s.ifId, s.pc, After(prog, s.idEx.valid, a))
                             && t.idEx == DecodeOut(s.ifId, s.regs) && !LoadUse(s.idEx, s.ifId)
  {
    var x := s.idEx;
    var v1 := Operand1(s);
    var v2 := Operand2(s);
    if x.valid { FlowRedirect(prog, x, a, v1, v2); }
    if !Redirects(x, v1, v2) {
      FrontArrives(prog, x, s.ifId, s.pc, a);
      if !LoadUse(x, s.ifId) {
        if AlignedRun(prog, a) { AlignedAhead(prog, a); }
        FrontMoves(prog, s.ifId, s.pc, i, After(prog, x.valid, a), s.regs);
      }
    }
    FlowShape(prog, s, i, t);
    hide FlowStep, Exec, Resolve, IdExFor, FetchOut, FetchNextPc, Guess, Fetch, AlignedRun, Sound, Predictable;
    hide FrontFor, Redirects, RedirectTarget, LoadUse, DecodeOut, Operand1, Operand2, Decode;
    if Redirects(x, v1, v2) { FrontRestarts(prog, a); }
  }

  lemma FrontRestarts(prog: Bytes, a: Arch)
    requires !Halted(prog, a)
    ensures FrontFor(prog, ID_BUBBLE, IF_BUBBLE, ActualNext(prog, a), Exec(prog, a))
  {
    hide Exec, Halted;
  }

  lemma FlowShape(prog: Bytes, s: Pipe, i: Inputs, t: Pipe)
    requires t == FlowStep(prog, s, i)
    ensures var redirect := Redirecting(s); var hold := LoadUse(s.idEx, s.ifId);
      && t.pc == (if redirect then RedirectTarget(s.idEx, Operand1(s), Operand2(s))
                  else if hold then s.pc
                  else FetchNextPc(s.pc, i))
      && t.ifId == (if redirect then IF_BUBBLE else if hold then s.ifId else FetchOut(prog, s.pc, i))
      && t.idEx == (if redirect || hold then ID_BUBBLE else DecodeOut(s.ifId, s.regs))
      && t.exMem == ExecuteOut(s.idEx, Operand1(s), Operand2(s))
      && t.memWb == MemOut(s.exMem, s.mem, i.dataReady) && t.prev == s.memWb
      && t.regs == RegsAfterWb(s.regs, s.memWb) && t.mem == MemStore(s.exMem, s.mem, i.dataReady)
      && t.halt == HaltAfter(s) && t.cycles == s.cycles + 1
      && t.instructions == s.instructions + (if s.memWb.valid then 1 else 0)
  {
    hide Redirects, RedirectTarget, LoadUse, FetchNextPc, FetchOut, DecodeOut, ExecuteOut, MemOut, MemStore,
         RegsAfterWb, HaltAfter;
    hide Operand1, Operand2, IsControl;
  }

  lemma ValidOp(prog: Bytes, w: MemWb, m: ExMem, a: Arch)
    ensures MemWbFor(prog, w, a) ==> IsHalting(w.op) == Halted(prog, a)
    ensures ExMemFor(prog, m, a) ==> IsHalting(m.op) == Halted(prog, a)
  {
    hide Decode, Fetch, AluResult, RdValue, AccessFor, IsHalting;
  }

  /** In a flowing cycle W, M and X become prev, MEM/WB and EX/MEM. */
  lemma FlowWindow(prog: Bytes, a: Arch, s: Pipe, i: Inputs, t: Pipe)
    requires Inv(prog, a, s) && !HaltInWb(s) && !HaltInMem(s) && !MemStalls(s.exMem, i.dataReady)
    requires s.idEx.valid ==> !IsHalting(s.idEx.op)
    requires t == FlowStep(prog, s, i)
    ensures t.memWb.valid == s.exMem.valid && t.exMem.valid == s.idEx.valid
    ensures Window(prog, a, s.memWb, t.memWb, t.exMem)
  {
    var aW := After(prog, s.memWb.valid, a);
    var aM := After(prog, s.exMem.valid, aW);
    FlowBack(prog, a, s, i);
    FlowShape(prog, s, i, t);
    ValidOp(prog, s.memWb, s.exMem, a);
    ValidOp(prog, t.memWb, s.exMem, aW);
    if s.idEx.valid { FlowEx(prog, s.idEx, aM, s); ValidOp(prog, s.memWb, t.exMem, aM); }
    hide FlowStep, Exec, MemWbFor, ExMemFor, Halted, FrontFor, IdExFor, MemOut, MemStore, Resolve, IsMemOp, IsHalting;
    hide FetchOut, FetchNextPc, DecodeOut, Redirects, RedirectTarget, LoadUse, RegsAfterWb, Operand1, Operand2;
  }

  lemma OnPath(prog: Bytes, f: IfId, pc: Word, a: Arch, regs: Regs)
    requires FrontFor(prog, ID_BUBBLE, f, pc, a) && DecodeOut(f, regs).valid
    ensures f.valid && f.pc == a.pc && f.raw == Fetch(prog, f.pc)
    ensures f.predictedTaken ==> Predictable(Decode(f.raw).op)
  {
    hide Exec, Halted, Guess, Fetch, Decode, Predictable;
  }

  /** What ID and IF deliver, put together. */
  lemma FlowOperands(prog: Bytes, a: Arch, s: Pipe, i: Inputs, t: Pipe)
    requires Inv(prog, a, s) && !HaltInWb(s) && !HaltInMem(s) && !MemStalls(s.exMem, i.dataReady)
    requires s.idEx.valid ==> !IsHalting(s.idEx.op)
    requires t == FlowStep(prog, s, i)
    requires AlignedRun(prog, a) || Sound(prog, s.pc, i.prediction)
    requires s.pc % 4 == 0 ==> Sound(prog, s.pc, i.prediction)
    ensures var aX := After(prog, s.idEx.valid, After(prog, s.exMem.valid, After(prog, s.memWb.valid, a)));
      && FrontFor(prog, t.idEx, t.ifId, t.pc, aX)
      && (t.idEx.valid ==> IdExFor(prog, t.idEx, aX, t))
  {
    var aW := After(prog, s.memWb.valid, a);
    var aM := After(prog, s.exMem.valid, aW);
    var aX := After(prog, s.idEx.valid, aM);
    if AlignedRun(prog, a) { AlignedAhead(prog, a); AlignedAhead(prog, aW); }
    FlowFront(prog, s, i, aM, t);
    FlowWindow(prog, a, s, i, t);
    FlowShape(prog, s, i, t);
    if t.idEx.valid {
      OnPath(prog, s.ifId, s.pc, aX, s.regs);
      InterlockHolds(s);
      FlowDecode(prog, a, s.memWb, t.memWb, t.exMem, s.ifId, t);
    }
    hide FlowStep, Exec, MemWbFor, ExMemFor, Halted, FrontFor, IdExFor, MemOut, MemStore, Resolve, IsMemOp, IsHalting,
         Window;
    hide FetchOut, FetchNextPc, DecodeOut, Redirects, RedirectTarget, LoadUse, RegsAfterWb, Operand1, Operand2,
         AlignedRun, Sound;
    hide ExecuteOut, Fetch, Decode, Predictable;
  }

  lemma InterlockHolds(s: Pipe)
    requires !LoadUse(s.idEx, s.ifId)
    ensures var x := ExecuteOut(s.idEx, Operand1(s), Operand2(s));
      x.valid && IsLoad(x.op) && x.rd != 0 ==> x.rd != Rs1Field(s.ifId.raw) && x.rd != Rs2Field(s.ifId.raw)
  {
    hide AluResult, ActuallyTaken, Target, Operand1, Operand2, IsLoad, Rs1Field, Rs2Field;
  }

  lemma FlowPreserves(prog: Bytes, a: Arch, s: Pipe, i: Inputs)
    requires Inv(prog, a, s) && !HaltInWb(s) && !MemStalls(s.exMem, i.dataReady)
    requires AlignedRun(prog, a) || Sound(prog, s.pc, i.prediction)
    requires s.pc % 4 == 0 ==> Sound(prog, s.pc, i.prediction)
    ensures Inv(prog, After(prog, s.memWb.valid, a), FlowStep(prog, s, i))
  {
    var t := FlowStep(prog, s, i);
    var aW := After(prog, s.memWb.valid, a);
    FlowBack(prog, a, s, i);
    if HaltInMem(s) {
      assert HaltInWb(t);
    } else {
      var aM := After(prog, s.exMem.valid, aW);
      FlowShape(prog, s, i, t);
      if s.idEx.valid {
        FlowEx(prog, s.idEx, aM, s);
        assert t.exMem.valid && t.exMem.op == s.idEx.op;
      } else {
        assert !t.exMem.valid;
      }
      if !(s.idEx.valid && IsHalting(s.idEx.op)) { FlowOperands(prog, a, s, i, t); }
    }
    hide FlowStep, Exec, MemWbFor, ExMemFor, Halted, FrontFor, IdExFor, BackInv, Resolve, MemStalls, Window,
         AlignedRun, Sound;
    hide Operand1, Operand2, ExecuteOut, IsHalting;
  }

  /** Memories that differ by at most one store. */
  ghost predicate OneStoreApart(m: Bytes, m': Bytes) {
    m' == m
    || exists a: Word, v: Word ::
         m' == StoreByte(m, a, v) || m' == StoreHalf(m, a, v) || m' == StoreWord(m, a, v)
  }

  lemma StoreApart(m: ExMem, mem: Bytes, ready: bool)
    ensures OneStoreApart(mem, MemStore(m, mem, ready))
    ensures MemStore(m, mem, ready) != mem ==> m.valid && IsStore(m.op) && ready
  {
    if m.valid && !MemStalls(m, ready) {
      match m.op
      case SW => assert MemStore(m, mem, ready) == StoreWord(mem, m.aluOut, m.rs2Val);
      case SH => assert MemStore(m, mem, ready) == StoreHalf(mem, m.aluOut, m.rs2Val % 0x1_0000);
      case SB => assert MemStore(m, mem, ready) == StoreByte(mem, m.aluOut, m.rs2Val % 0x100);
      case _ =>
    }
    hide StoreByte, StoreHalf, StoreWord;
  }

  /** Every running cycle: the entry at the WB input is the interpreter's next commit; the core stops
      in this cycle exactly when the interpreter has stopped there, with its registers, and with
      its memory but for one younger store that was already in MEM; otherwise the invariant moves on. */
  lemma StepRefines(prog: Bytes, a: Arch, s: Pipe, i: Inputs)
    requires Inv(prog, a, s) && s.halt.Running?
    requires AlignedRun(prog, a) || Sound(prog, s.pc, i.prediction)
    requires s.pc % 4 == 0 ==> Sound(prog, s.pc, i.prediction)
    ensures var t := Step(prog, s, i);
      && (s.memWb.valid ==> CommitOf(s.memWb) == CommitAt(prog, a))
      && t.instructions == s.instructions + (if s.memWb.valid then 1 else 0) && t.cycles == s.cycles + 1
      && (if s.memWb.valid && Halted(prog, a) then
            && t.halt == Stopped(a.pc, Fetch(prog, a.pc), InstructionAt(prog, a.pc).op)
            && t.regs == a.regs && OneStoreApart(a.mem, t.mem)
            && (t.mem != a.mem ==> s.exMem.valid && IsStore(s.exMem.op) && i.dataReady)
          else
            t.halt.Running? && Inv(prog, After(prog, s.memWb.valid, a), t))
  {
    var t := Step(prog, s, i);
    ValidOp(prog, s.memWb, s.exMem, a);
    if s.memWb.valid && Halted(prog, a) {
      StopsHere(prog, a, s, i);
    } else if MemStalls(s.exMem, i.dataReady) {
      StallPreserves(prog, a, s);
    } else {
      FlowPreserves(prog, a, s, i);
    }
    hide Inv, Exec, ExMemFor, Halted, InstructionAt, OneStoreApart, AlignedRun, Sound, IsHalting, IsStore, CommitAt,
         CommitOf;
    hide MemWbFor;
  }

  lemma StopsHere(prog: Bytes, a: Arch, s: Pipe, i: Inputs)
    requires Inv(prog, a, s) && s.halt.Running? && HaltInWb(s)
    ensures var t := Step(prog, s, i);
      && t.halt == Stopped(a.pc, Fetch(prog, a.pc), InstructionAt(prog, a.pc).op)
      && t.regs == a.regs && OneStoreApart(a.mem, t.mem)
      && (t.mem != a.mem ==> s.exMem.valid && IsStore(s.exMem.op) && i.dataReady)
  {
    ValidOp(prog, s.memWb, s.exMem, a);
    WritebackRegs(prog, s.memWb, a);
    StoreApart(s.exMem, s.mem, i.dataReady);
    FlowShape(prog, s, i, FlowStep(prog, s, i));
    assert Exec(prog, a) == a by { hide InstructionAt; }
    hide Exec, ExMemFor, IdExFor, FrontFor, Halted, MemStore, RegsAfterWb, MemStalls, FlowStep, OneStoreApart,
         IsStore, IsHalting;
    hide RdValue, AccessFor, Decode, Fetch, Resolve, Capture;
  }
}
