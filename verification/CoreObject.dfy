/** src/sim/core.cpp in its own form: the stages wired together and clocked.  One tick of the object is
    one MachineTick of its model, so everything proved of runs of the model holds of the object. */
module CoreObject {
  import opened Words
  import opened Decoder
  import B = ByteMemory
  import opened Interpreter
  import opened Pipeline
  import H = Hierarchy
  import CacheCost
  import P = Predictor
  import opened Predictor
  import opened Machine
  import CommitRefinement
  import opened MemoryObjects
  import opened StageObjects
  import opened CoreParts

  datatype HaltReason = NoReason | Ebreak | Illegal

  /** The opcode behind a reason; a halted core that names none would match no halting instruction. */
  function HaltOp(r: HaltReason): Op {
    match r
    case Ebreak => EBREAK
    case Illegal => ILLEGAL
    case NoReason => FENCE
  }

  /** The data port after MEM's evaluate, and its answer. */
  function Asked(d: H.Mem, x: ExMem): (r: H.Mem)
    requires H.Shape(d)
    ensures H.Shape(r)
  {
    if AsksData(x) then H.Ready(d, x.aluOut, IsStore(x.op)) else d
  }

  predicate AskReady(d: H.Mem, x: ExMem)
    requires H.Shape(d)
  {
    AsksData(x) && H.IsServed(Asked(d, x))
  }

  /** Core::capture_ex_operands on values. */
  function Captured(x: IdEx, m: ExMem, w: MemWb, prev: MemWb): IdEx {
    if !x.valid then x
    else x.(rs1Val := Resolve(x.rs1, x.rs1Val, m, w, prev), rs2Val := Resolve(x.rs2, x.rs2Val, m, w, prev))
  }

  function Written(regs: Regs, pending: bool, rd: Reg, v: Word): Regs { if pending then SetReg(regs, rd, v) else regs }

  /** FlowStep in the terms the stages use. */
  lemma FlowFields(prog: B.Bytes, s: Pipe, i: Inputs)
    ensures var t := FlowStep(prog, s, i); var x := s.idEx; var j := Inputs(i.fetchReady, false, i.prediction);
      var v1 := Resolve(x.rs1, x.rs1Val, s.exMem, s.memWb, s.prev);
      var v2 := Resolve(x.rs2, x.rs2Val, s.exMem, s.memWb, s.prev);
      var redirect := Redirects(x, v1, v2); var hold := LoadUse(x, s.ifId);
      && v1 == Operand1(s) && v2 == Operand2(s)
      && t.pc == (if redirect then RedirectTarget(x, v1, v2)
                  else if hold || !i.fetchReady then s.pc
                  else FetchNextPc(s.pc, j))
      && t.ifId == (if redirect then IF_BUBBLE else if hold then s.ifId else FetchOut(prog, s.pc, j))
      && t.idEx == (if redirect || hold then ID_BUBBLE else DecodeOut(s.ifId, s.regs))
      && t.exMem == ExecuteOut(x, v1, v2) && t.memWb == MemOut(s.exMem, s.mem, i.dataReady) && t.prev == s.memWb
      && t.regs == Written(s.regs, s.memWb.valid && HasWriteback(s.memWb.op), s.memWb.rd, s.memWb.wbVal)
      && t.mem == MemStore(s.exMem, s.mem, i.dataReady) && t.halt == HaltAfter(s)
      && t.correct == s.correct + (if IsControl(x) && !redirect then 1 else 0)
      && t.mispredicts == s.mispredicts + (if IsControl(x) && redirect then 1 else 0)
      && t.cycles == s.cycles + 1 && t.instructions == s.instructions + (if s.memWb.valid then 1 else 0)
  {
    hide Redirects, RedirectTarget, LoadUse, Fetch, DecodeOut, ExecuteOut, MemOut, MemStore, Resolve, HasWriteback,
         SetReg, IsControl;
  }

  lemma StallFields(s: Pipe, ready: bool)
    ensures var t := StallStep(s);
      && t == s.(idEx := Captured(s.idEx, s.exMem, s.memWb, s.prev), memWb := MEM_BUBBLE, prev := s.memWb,
                 regs := Written(s.regs, s.memWb.valid && HasWriteback(s.memWb.op), s.memWb.rd, s.memWb.wbVal),
                 halt := HaltAfter(s), cycles := s.cycles + 1,
                 instructions := s.instructions + (if s.memWb.valid then 1 else 0))
    ensures MemStalls(s.exMem, ready) ==>
              MemOut(s.exMem, s.mem, ready) == MEM_BUBBLE && MemStore(s.exMem, s.mem, ready) == s.mem
  {
    hide Resolve, HasWriteback, SetReg, LoadedValue;
  }

  lemma TaughtIsTrained(t: Option<Tables>, s: Pipe, pc: Word, cond: bool, taken: bool, target: Word)
    requires t.Some? ==> TablesShape(t.value)
    requires var x := s.idEx;
      t.Some? && Trains(x) ==>
        pc == x.pc && cond == IsCondBranch(x.op) && taken == ActuallyTaken(x.op, Operand1(s), Operand2(s))
        && target == Target(x.op, x.pc, x.imm, Operand1(s))
    ensures Taught(t, t.Some? && Trains(s.idEx), pc, cond, taken, target) == if t.Some? then Some(Trained(t.value, s))
      else None
  {
    hide P.Update, TablesShape, ActuallyTaken, Target, Operand1, Operand2, IsCondBranch, Trains;
  }

  /** The back end of a machine. */
  function BackOf(n: Machine): Back {
    var t := n.pipe;
    Back(t.prev, t.regs, t.exMem, t.memWb, t.mispredicts, t.correct, n.bp, t.mem, n.dport)
  }

  /** The front end f latches into that of t. */
  predicate Becomes(f: Front, redirect: bool, target: Word, t: Pipe) {
    && t.idEx == (if redirect || f.hold then ID_BUBBLE else f.decoded)
    && t.ifId == (if redirect then IF_BUBBLE else if f.hold then f.held else f.fetched)
    && t.pc == (if redirect then target else if f.hold || f.fetchStall then f.pc else f.nextPc)
  }

  lemma TickFlows(prog: B.Bytes, m: Machine)
    requires WellFormed(m) && m.pipe.halt.Running? && !Stalling(m)
    ensures var n := MachineTick(prog, m);
      && n.pipe == FlowStep(prog, m.pipe, InputsOf(m)) && n.iport == H.Tick(FetchAsked(m))
      && n.dport == H.Tick(DataAsked(m))
      && n.bp == if m.bp.Some? then Some(Trained(m.bp.value, m.pipe)) else None
  {
    hide WellFormed, FlowStep, StallStep, InputsOf, FetchAsked, DataAsked, Trained, H.Tick;
  }

  lemma TickStalls(prog: B.Bytes, m: Machine)
    requires WellFormed(m) && m.pipe.halt.Running? && Stalling(m)
    ensures var n := MachineTick(prog, m);
      n.pipe == StallStep(m.pipe) && n.iport == FetchAsked(m) && n.dport == H.Tick(DataAsked(m)) && n.bp == m.bp
  {
    hide WellFormed, FlowStep, StallStep, InputsOf, FetchAsked, DataAsked, Trained, H.Tick;
  }

  lemma TickCounters(prog: B.Bytes, m: Machine)
    requires WellFormed(m) && m.pipe.halt.Running?
    ensures var t := MachineTick(prog, m).pipe;
      && t.halt == HaltAfter(m.pipe) && t.cycles == m.pipe.cycles + 1
      && t.instructions == m.pipe.instructions + (if m.pipe.memWb.valid then 1 else 0)
  {
    hide WellFormed, InputsOf, FetchAsked, DataAsked, Trained, H.Tick, Stalling, FlowStep, StallStep, HaltAfter;
    if Stalling(m) { TickStalls(prog, m); } else { TickFlows(prog, m); }
    FlowFields(prog, m.pipe, InputsOf(m));
    StallFields(m.pipe, true);
  }

  lemma StallIs(m: Machine)
    requires WellFormed(m)
    ensures Stalling(m) == MemStalls(m.pipe.exMem, InputsOf(m).dataReady)
  {
    hide WellFormed, InputsOf;
  }

  lemma BpTables(bp: Option<BranchPredictor>)
    requires BpValid(bp)
    ensures bp.Some? ==> BpModel(bp).value.bhtBits == bp.value.bhtBits && BpModel(bp).value.btbBits == bp.value.btbBits
  {
  }

  lemma LoadNothing(m: B.Bytes, base: Word)
    ensures Loaded(m, base, []) == m && WordAt(base, 0) == base
  {
  }

  lemma LoadMore(m: B.Bytes, base: Word, words: seq<Word>, k: nat)
    requires k < |words|
    ensures Loaded(m, base, words[..k + 1]) == B.StoreWord(Loaded(m, base, words[..k]), WordAt(base, k), words[k])
    ensures WordAt(base, k + 1) == Add(WordAt(base, k), 4)
  {
    hide B.StoreWord;
    assert words[..k + 1][..k] == words[..k];
  }

  lemma NoTicks(prog: B.Bytes, m: Machine)
    requires WellFormed(m)
    ensures Ticks(prog, m, 0) == m && CommitTrace(prog, m, 0) == []
  {
    hide WellFormed;
  }

  lemma MoreTicks(prog: B.Bytes, m: Machine, n: nat)
    requires WellFormed(m)
    ensures Ticks(prog, m, n + 1) == MachineTick(prog, Ticks(prog, m, n))
    ensures CommitTrace(prog, m, n + 1) == CommitTrace(prog, m, n) + Retired(Ticks(prog, m, n))
  {
    hide WellFormed, MachineTick, Retired;
  }

  lemma TickCounts(prog: B.Bytes, m: Machine)
    requires WellFormed(m) && m.pipe.halt.Running?
    ensures MachineTick(prog, m).pipe.cycles == m.pipe.cycles + 1
  {
    hide WellFormed, InputsOf, FetchAsked, DataAsked, Trained;
    CommitRefinement.StepCounts(prog, m.pipe, InputsOf(m));
  }

  /** Each of the first n ticks is the tick of a running core. */
  ghost predicate RunsThrough(prog: B.Bytes, m: Machine, n: nat)
    requires WellFormed(m)
  {
    forall j | 0 <= j < n :: Ticks(prog, m, j).pipe.halt.Running?
  }

  lemma RunsOn(prog: B.Bytes, m: Machine, n: nat)
    requires WellFormed(m) && RunsThrough(prog, m, n) && Ticks(prog, m, n).pipe.halt.Running?
    ensures RunsThrough(prog, m, n + 1)
  {
    hide WellFormed, Ticks;
  }

  lemma RunsNone(prog: B.Bytes, m: Machine)
    requires WellFormed(m)
    ensures RunsThrough(prog, m, 0)
  {
  }

  /** Instruction memory after the words of a program have been stored from addr on. */
  function Loaded(m: B.Bytes, addr: Word, words: seq<Word>): B.Bytes {
    if |words| == 0 then m
      else B.StoreWord(Loaded(m, addr, words[..|words| - 1]), WordAt(addr, |words| - 1), words[|words| - 1])
  }

  function WordAt(addr: Word, k: nat): Word { (addr + 4 * k) % 0x1_0000_0000 }

  function Boot(pc: Word): Arch { Arch(pc, seq(32, _ => 0), map[]) }

  lemma MemoriesValid(cfg: SimConfig, m: Memories)
    requires m.As(cfg)
    ensures m.iport.Valid() && m.dport.Valid()
  {
    hide Port.Valid, LongestWait, CacheCost.Quiet;
  }

  ghost predicate PortIs(p: Port, data: B.Bytes, model: H.Mem)
    reads p.Repr
  {
    p.Valid() && p.Data() == data && p.Model() == model
  }

  /** What the back end holds after it has latched. */
  datatype Back = Back(prev: MemWb, regs: Regs, x: ExMem, w: MemWb, mispredicts: nat, correct: nat, t: Option<Tables>,
                       data: B.Bytes, model: H.Mem)

  /** What it is about to latch. */
  datatype Writing = Writing(prev: MemWb, regs: Regs, pending: bool, rd: Reg, val: Word, x: ExMem, w: MemWb,
                             mispredicts: nat, correct: nat, t: Option<Tables>, control: bool, redirect: bool,
                             train: bool, pc: Word, cond: bool, taken: bool, target: Word)

  function LatchedBack(n: Writing, data: B.Bytes, model: H.Mem): Back
    requires (n.t.Some? ==> TablesShape(n.t.value)) && H.Shape(model)
  {
    Back(n.prev, Written(n.regs, n.pending, n.rd, n.val), n.x, n.w,
         n.mispredicts + (if n.control && n.redirect then 1 else 0),
             n.correct + (if n.control && !n.redirect then 1 else 0),
         Taught(n.t, n.train, n.pc, n.cond, n.taken, n.target), data, H.Tick(model))
  }

  /** What it holds after a stalled cycle. */
  function StalledBack(n: Writing, x: ExMem, data: B.Bytes, model: H.Mem): Back
    requires H.Shape(model)
  {
    Back(n.prev, Written(n.regs, n.pending, n.rd, n.val), x, n.w, n.mispredicts, n.correct, n.t, data, H.Tick(model))
  }

  /** The front end before it latches: fetch's fields, the interlock, and the words on both sides of IF/ID. */
  datatype Front = Front(pc: Word, nextPc: Word, fetchStall: bool, hold: bool, decoded: IdEx, held: IfId, fetched: IfId)

  class Core {
    const base: Word
    const iport: Port
    const dport: Port
    const rf: RegFile
    const bp: Option<BranchPredictor>
    const stats: SimStats
    const ifId: Latch<IfId>
    const idEx: Latch<IdEx>
    const exMem: Latch<ExMem>
    const memWb: Latch<MemWb>
    const fetch: FetchStage
    const decode: DecodeStage
    const fwd: ForwardUnit
    const ex: ExecuteStage
    const mem: MemAccessStage
    const wb: WritebackStage
    const hazard: HazardUnit
    var halted: bool
    var haltReason: HaltReason
    var haltPc: Word
    var haltRaw: Raw
    var trace: seq<Commit>

    /** The objects of the core other than its two memories. */
    ghost function Parts(): set<object> {
      {this, rf, rf.regs, stats, ifId, idEx, exMem, memWb, fetch, decode, fwd, ex, mem, wb, hazard} + BpObjects(bp)
    }

    ghost function Parted(): Hardware {
      Hardware(iport, dport, rf, bp, stats, ifId, idEx, exMem, memWb, fetch, decode, fwd, ex, mem, wb, hazard)
    }

    ghost predicate Wired() { Parted().Wired() && this !in iport.Repr && this !in dport.Repr }

    /** The objects of the core are not in a memory. */
    ghost predicate NoneIn(objects: set<object>) { this !in objects && Parted().NoneIn(objects) }

    ghost predicate Sound()
      reads rf.regs, iport.Repr, dport.Repr
    {
      Wired() && rf.Valid() && iport.Valid() && dport.Valid()
    }

    /** Between cycles the stall, flush and redirect signals are clear. */
    ghost predicate Valid()
      reads rf.regs, iport.Repr, dport.Repr, fetch`stall, fetch`redirect, decode`stall, decode`flush
    {
      Sound() && Quiescent()
    }

    ghost predicate Quiescent()
      reads fetch`stall, fetch`redirect, decode`stall, decode`flush
    {
      !fetch.stall && !fetch.redirect && !decode.stall && !decode.flush
    }

    ghost function HaltModel(): Halt
      reads this`halted, this`haltReason, this`haltPc, this`haltRaw
    {
      if !halted then Running else Stopped(haltPc, haltRaw, HaltOp(haltReason))
    }

    ghost function PipeModel(): Pipe
      requires Valid()
      reads this, rf.regs, iport.Repr, dport.Repr, fetch, decode, ifId, idEx, exMem, memWb, fwd, stats
    {
      Pipe(fetch.pc, ifId.reg, idEx.reg, exMem.reg, memWb.reg, fwd.prev, rf.Model(), dport.Data(), HaltModel(),
           stats.cycles, stats.instructions, stats.branchCorrect, stats.branchMispredicts)
    }

    ghost function Model(): (m: Machine)
      requires Valid()
      reads this, rf.regs, iport.Repr, dport.Repr, fetch, decode, ifId, idEx, exMem, memWb, fwd, stats, BpObjects(bp)
      ensures WellFormed(m)
    {
      Machine(PipeModel(), iport.Model(), dport.Model(), BpModel(bp))
    }

    constructor (cfg: SimConfig)
      requires cfg.Ok()
      ensures Valid() && fresh(Parts()) && fresh(iport.Repr) && fresh(dport.Repr)
      ensures Parted().Empty(cfg.ramBase) && Memories(iport, dport, bp).As(cfg) && !halted && trace == []
      ensures base == cfg.ramBase
    {
      hide Memories.As, Hardware.Wired, Port.Valid, BpValid;
      var h := NewHardware(cfg);
      iport, dport, rf, bp, stats, ifId, idEx, exMem := h.iport, h.dport, h.rf, h.bp, h.stats, h.ifId, h.idEx, h.exMem;
      memWb, fetch, decode, fwd, ex, mem, wb, hazard := h.memWb, h.fetch, h.decode, h.fwd, h.ex, h.mem, h.wb, h.hazard;
      base, halted, haltReason, haltPc, haltRaw, trace := cfg.ramBase, false, NoReason, 0, 0, [];
      new;
      MemoriesValid(cfg, Memories(iport, dport, bp));
    }

    lemma OutsideMemories()
      requires Wired()
      ensures NoneIn(iport.Repr) && NoneIn(dport.Repr) && iport.Repr !! dport.Repr
    {
    }

    lemma Outside()
      requires Valid()
      ensures NoneIn(iport.Repr) && NoneIn(dport.Repr) && iport.Repr !! dport.Repr
    {
    }

    lemma FrontApart()
      requires Sound()
      ensures fetch !in iport.Repr && decode !in iport.Repr && ifId !in iport.Repr && idEx !in iport.Repr
      ensures hazard !in iport.Repr
      ensures rf.regs !in iport.Repr
      ensures fetch !in dport.Repr && decode !in dport.Repr && ifId !in dport.Repr && idEx !in dport.Repr
      ensures hazard !in dport.Repr
      ensures rf.regs !in dport.Repr
      ensures iport.Repr !! dport.Repr && BpObjects(bp) !! iport.Repr && BpObjects(bp) !! dport.Repr
      ensures ifId as object != idEx && ifId as object != exMem && ifId as object != memWb
      ensures idEx as object != exMem && idEx as object != memWb && exMem as object != memWb
      ensures fetch !in BpObjects(bp) && decode !in BpObjects(bp) && ifId !in BpObjects(bp) && idEx !in BpObjects(bp)
      ensures hazard !in BpObjects(bp)
    {
    }

    lemma BackApart()
      requires Sound()
      ensures fwd !in iport.Repr && ex !in iport.Repr && exMem !in iport.Repr && memWb !in iport.Repr
      ensures mem !in iport.Repr
      ensures wb !in iport.Repr && stats !in iport.Repr && rf.regs !in iport.Repr
      ensures fwd !in dport.Repr && ex !in dport.Repr && exMem !in dport.Repr && memWb !in dport.Repr
      ensures mem !in dport.Repr
      ensures wb !in dport.Repr && stats !in dport.Repr && rf.regs !in dport.Repr
      ensures iport.Repr !! dport.Repr && BpObjects(bp) !! iport.Repr && BpObjects(bp) !! dport.Repr
      ensures ifId as object != idEx && ifId as object != exMem && ifId as object != memWb
      ensures idEx as object != exMem && idEx as object != memWb && exMem as object != memWb
      ensures fwd !in BpObjects(bp) && ex !in BpObjects(bp) && exMem !in BpObjects(bp) && memWb !in BpObjects(bp)
      ensures mem !in BpObjects(bp)
      ensures wb !in BpObjects(bp) && stats !in BpObjects(bp)
    {
    }

    lemma BackParts()
      requires Sound()
      ensures BpValid(bp) && rf.Valid() && iport.Valid() && dport.Valid() && rf.regs !in BpObjects(bp)
      ensures fwd !in iport.Repr && ex !in iport.Repr && exMem !in iport.Repr && memWb !in iport.Repr
      ensures mem !in iport.Repr
      ensures wb !in iport.Repr && stats !in iport.Repr && rf.regs !in iport.Repr
      ensures fwd !in dport.Repr && ex !in dport.Repr && exMem !in dport.Repr && memWb !in dport.Repr
      ensures mem !in dport.Repr
      ensures wb !in dport.Repr && stats !in dport.Repr && rf.regs !in dport.Repr
      ensures iport.Repr !! dport.Repr && BpObjects(bp) !! iport.Repr && BpObjects(bp) !! dport.Repr
      ensures ifId as object != idEx && ifId as object != exMem && ifId as object != memWb
      ensures idEx as object != exMem && idEx as object != memWb && exMem as object != memWb
      ensures fwd !in BpObjects(bp) && ex !in BpObjects(bp) && exMem !in BpObjects(bp) && memWb !in BpObjects(bp)
      ensures mem !in BpObjects(bp)
      ensures wb !in BpObjects(bp) && stats !in BpObjects(bp)
    {
    }

    lemma Wiring()
      requires Wired()
      ensures fetch.imem == iport && fetch.out == ifId && fetch.bp == bp
      ensures decode.rf == rf && decode.inp == ifId && decode.out == idEx && Parted().Latches()
      ensures fwd.exMem == exMem && fwd.memWb == memWb
      ensures ex.inp == idEx && ex.out == exMem && ex.fwd == fwd && ex.fetch == fetch && ex.decode == decode
      ensures ex.bp == bp && ex.stats == stats
      ensures mem.dmem == dport && mem.inp == exMem && mem.out == memWb && wb.rf == rf && wb.inp == memWb
      ensures hazard.ifId == ifId && hazard.idEx == idEx && hazard.fetch == fetch && hazard.decode == decode
      ensures BpValid(bp) && rf.regs !in BpObjects(bp)
      ensures fetch.Valid() == iport.Valid() && mem.Valid() == dport.Valid()
    {
      hide Port.Valid;
    }

    // ---- What the evaluate phase leaves behind, in terms of the registers before it ----

    ghost predicate FrontDone(prog: B.Bytes, pc: Word, ready: bool, p: Prediction, f: IfId, regs: Regs)
      reads fetch`fetchStall, fetch`nextPc, ifId`shadow, idEx`shadow
    {
      var i := Inputs(ready, false, p);
      && fetch.fetchStall == !ready && fetch.nextPc == FetchNextPc(pc, i) && ifId.shadow == FetchOut(prog, pc, i)
      && idEx.shadow == DecodeOut(f, regs)
    }

    ghost predicate BackDone(x: IdEx, m: ExMem, w: MemWb, prev: MemWb)
      reads fwd`prevNext, exMem`shadow, ex`redirect, ex`redirectTarget, ex`control, ex`train, ex`trainPc,
            ex`trainCond, ex`trainTaken, ex`trainTarget
    {
      var v1 := Resolve(x.rs1, x.rs1Val, m, w, prev);
      var v2 := Resolve(x.rs2, x.rs2Val, m, w, prev);
      fwd.prevNext == w && exMem.shadow == ExecuteOut(x, v1, v2) && ex.Resolved(x, v1, v2)
    }

    ghost predicate MemDone(x: ExMem, bytes: B.Bytes, ready: bool)
      reads mem`stalling, memWb`shadow
    {
      mem.stalling == MemStalls(x, ready) && memWb.shadow == MemOut(x, bytes, ready)
    }

    ghost predicate EndDone(w: MemWb, x: IdEx, f: IfId)
      reads wb`pending, wb`rd, wb`val, hazard`stall
    {
      && wb.pending == (w.valid && HasWriteback(w.op)) && (wb.pending ==> wb.rd == w.rd && wb.val == w.wbVal)
      && hazard.stall == LoadUse(x, f)
    }

    method EvaluateFront()
      requires Valid()
      modifies fetch`fetchStall, fetch`nextPc, ifId`shadow, idEx`shadow, iport.Repr
      ensures Valid() && iport.Data() == old(iport.Data())
      ensures iport.Model() == H.Ready(old(iport.Model()), fetch.pc, false)
      ensures FrontDone(old(iport.Data()), old(fetch.pc), H.IsServed(H.Ready(old(iport.Model()), old(fetch.pc), false)),
                        Guessed(old(BpModel(bp)), old(fetch.pc)), old(ifId.reg), old(rf.Model()))
    {
      hide Port.Valid, Port.Model, Port.Data, H.Shape, H.Ready, H.IsServed, BpModel, BpValid, Guessed, FetchOut,
           FetchNextPc, DecodeOut;
      hide Wired, FetchStage.Valid, Parts, RegFile.Valid, RegFile.Model, MemAccessStage.Valid, Hardware.Latches,
           HaltModel;
      hide NoneIn, Parted;
      FrontApart();
      BackApart();
      Wiring();
      Bubbles();
      fetch.Evaluate();
      Wiring();
      decode.Evaluate();
    }

    method EvaluateBack()
      requires Valid()
      modifies fwd`prevNext, exMem`shadow, ex`redirect, ex`redirectTarget, ex`control, ex`train, ex`trainPc,
               ex`trainCond, ex`trainTaken, ex`trainTarget
      ensures Valid()
      ensures BackDone(old(idEx.reg), old(exMem.reg), old(memWb.reg), old(fwd.prev))
    {
      hide Port.Valid, Port.Model, Port.Data, H.Shape, H.Ready, H.IsServed, BpModel, BpValid, Guessed, FetchOut,
           FetchNextPc, DecodeOut;
      hide Wired, FetchStage.Valid, Parts, RegFile.Valid, RegFile.Model, MemAccessStage.Valid, Hardware.Latches,
           HaltModel;
      hide ExecuteStage.Resolved, ExecuteOut, Pipeline.Resolve, ForwardUnit.Resolve;
      hide NoneIn, Parted;
      FrontApart();
      BackApart();
      Wiring();
      fwd.Evaluate();
      ex.Evaluate();
    }

    method EvaluateMem()
      requires Valid()
      modifies mem`stalling, memWb`shadow, dport.Repr
      ensures Valid()
      ensures dport.Model() == Asked(old(dport.Model()), old(exMem.reg))
      ensures MemDone(old(exMem.reg), old(dport.Data()), AskReady(old(dport.Model()), old(exMem.reg)))
      ensures dport.Data() == MemStore(old(exMem.reg), old(dport.Data()), AskReady(old(dport.Model()), old(exMem.reg)))
    {
      hide Port.Valid, Port.Model, Port.Data, H.Shape, H.Ready, H.IsServed, BpModel, BpValid, Guessed, FetchOut,
           FetchNextPc, DecodeOut;
      hide Wired, FetchStage.Valid, Parts, RegFile.Valid, RegFile.Model, MemAccessStage.Valid, Hardware.Latches,
           HaltModel;
      hide MemOut, MemStore, MemStalls, IsMemOp, IsStore;
      hide NoneIn, Parted;
      FrontApart();
      BackApart();
      Wiring();
      mem.Evaluate();
      Wiring();
    }

    method EvaluateEnd()
      requires Valid()
      modifies wb`pending, wb`rd, wb`val, hazard`stall
      ensures Valid()
      ensures EndDone(old(memWb.reg), old(idEx.reg), old(ifId.reg))
    {
      hide Port.Valid, Port.Model, Port.Data, H.Shape, H.Ready, H.IsServed, BpModel, BpValid, Guessed, FetchOut,
           FetchNextPc, DecodeOut;
      hide Wired, FetchStage.Valid, Parts, RegFile.Valid, RegFile.Model, MemAccessStage.Valid, Hardware.Latches,
           HaltModel;
      hide LoadUse, HasWriteback;
      hide NoneIn, Parted;
      FrontApart();
      BackApart();
      Wiring();
      wb.Evaluate();
      hazard.Evaluate();
    }

    method EvaluateFirst()
      requires Valid()
      modifies fetch`fetchStall, fetch`nextPc, ifId`shadow, idEx`shadow, iport.Repr, fwd`prevNext, exMem`shadow,
               ex`redirect, ex`redirectTarget, ex`control, ex`train, ex`trainPc, ex`trainCond, ex`trainTaken,
               ex`trainTarget
      ensures Valid() && iport.Data() == old(iport.Data())
      ensures iport.Model() == H.Ready(old(iport.Model()), fetch.pc, false)
      ensures FrontDone(old(iport.Data()), old(fetch.pc), H.IsServed(H.Ready(old(iport.Model()), old(fetch.pc), false)),
                        Guessed(old(BpModel(bp)), old(fetch.pc)), old(ifId.reg), old(rf.Model()))
      ensures BackDone(old(idEx.reg), old(exMem.reg), old(memWb.reg), old(fwd.prev))
    {
      hide Port.Valid, Port.Model, Port.Data, H.Shape, H.Ready, H.IsServed, BpModel, BpValid, Guessed, FetchOut,
           FetchNextPc, DecodeOut;
      hide Wired, FetchStage.Valid, Parts, RegFile.Valid, RegFile.Model, MemAccessStage.Valid, Hardware.Latches,
           HaltModel;
      hide MemOut, MemStore, MemStalls, IsMemOp, IsStore, LoadUse, HasWriteback, ExecuteOut, Pipeline.Resolve,
           ExecuteStage.Resolved, FrontDone, BackDone, MemDone, EndDone, Asked, AskReady;
      hide NoneIn, Parted;
      FrontApart();
      BackApart();
      Wiring();
      EvaluateFront();
      EvaluateBack();
    }

    method EvaluateLast()
      requires Valid()
      modifies mem`stalling, memWb`shadow, dport.Repr, wb`pending, wb`rd, wb`val, hazard`stall
      ensures Valid()
      ensures dport.Model() == Asked(old(dport.Model()), old(exMem.reg))
      ensures MemDone(old(exMem.reg), old(dport.Data()), AskReady(old(dport.Model()), old(exMem.reg)))
      ensures dport.Data() == MemStore(old(exMem.reg), old(dport.Data()), AskReady(old(dport.Model()), old(exMem.reg)))
      ensures EndDone(old(memWb.reg), old(idEx.reg), old(ifId.reg))
    {
      hide Port.Valid, Port.Model, Port.Data, H.Shape, H.Ready, H.IsServed, BpModel, BpValid, Guessed, FetchOut,
           FetchNextPc, DecodeOut;
      hide Wired, FetchStage.Valid, Parts, RegFile.Valid, RegFile.Model, MemAccessStage.Valid, Hardware.Latches,
           HaltModel;
      hide MemOut, MemStore, MemStalls, IsMemOp, IsStore, LoadUse, HasWriteback, ExecuteOut, Pipeline.Resolve,
           ExecuteStage.Resolved, FrontDone, BackDone, MemDone, EndDone, Asked, AskReady;
      hide NoneIn, Parted;
      FrontApart();
      BackApart();
      Wiring();
      EvaluateMem();
      EvaluateEnd();
    }

    /** All seven evaluate calls: the registers and the bytes of instruction memory are as they were. */
    method EvaluateStages()
      requires Valid()
      modifies fetch`fetchStall, fetch`nextPc, ifId`shadow, idEx`shadow, iport.Repr, fwd`prevNext, exMem`shadow,
               ex`redirect, ex`redirectTarget, ex`control, ex`train, ex`trainPc, ex`trainCond, ex`trainTaken,
               ex`trainTarget, mem`stalling, memWb`shadow, dport.Repr, wb`pending, wb`rd, wb`val, hazard`stall
      ensures Valid() && iport.Data() == old(iport.Data())
      ensures iport.Model() == H.Ready(old(iport.Model()), fetch.pc, false)
      ensures FrontDone(old(iport.Data()), old(fetch.pc), H.IsServed(H.Ready(old(iport.Model()), old(fetch.pc), false)),
                        Guessed(old(BpModel(bp)), old(fetch.pc)), old(ifId.reg), old(rf.Model()))
      ensures BackDone(old(idEx.reg), old(exMem.reg), old(memWb.reg), old(fwd.prev))
      ensures dport.Model() == Asked(old(dport.Model()), old(exMem.reg))
      ensures MemDone(old(exMem.reg), old(dport.Data()), AskReady(old(dport.Model()), old(exMem.reg)))
      ensures dport.Data() == MemStore(old(exMem.reg), old(dport.Data()), AskReady(old(dport.Model()), old(exMem.reg)))
      ensures EndDone(old(memWb.reg), old(idEx.reg), old(ifId.reg))
    {
      hide Port.Valid, Port.Model, Port.Data, H.Shape, H.Ready, H.IsServed, BpModel, BpValid, Guessed, FetchOut,
           FetchNextPc, DecodeOut;
      hide Wired, FetchStage.Valid, Parts, RegFile.Valid, RegFile.Model, MemAccessStage.Valid, Hardware.Latches,
           HaltModel;
      hide MemOut, MemStore, MemStalls, IsMemOp, IsStore, LoadUse, HasWriteback, ExecuteOut, Pipeline.Resolve,
           ExecuteStage.Resolved, FrontDone, BackDone, MemDone, EndDone, Asked, AskReady;
      hide NoneIn, Parted;
      FrontApart();
      BackApart();
      Wiring();
      EvaluateFirst();
      EvaluateLast();
    }

    // ---- The latch phase ----

    /** What WB and the forwarding unit have latched. */
    ghost predicate WbLatched(prev: MemWb, regs: Regs)
      reads fwd`prev, rf.regs
    {
      fwd.prev == prev && rf.Valid() && rf.Model() == regs
    }

    /** What EX has latched, probed and taught. */
    ghost predicate ExLatched(x: ExMem, mispredicts: nat, correct: nat, t: Option<Tables>)
      reads exMem`reg, stats`branchMispredicts, stats`branchCorrect, BpObjects(bp)
    {
      && exMem.reg == x && stats.branchMispredicts == mispredicts && stats.branchCorrect == correct
      && BpValid(bp) && BpModel(bp) == t
    }

    ghost predicate BackIs(b: Back)
      reads fwd`prev, rf.regs, exMem`reg, stats`branchMispredicts, stats`branchCorrect, BpObjects(bp), memWb`reg,
            dport.Repr
    {
      && WbLatched(b.prev, b.regs) && ExLatched(b.x, b.mispredicts, b.correct, b.t)
      && memWb.reg == b.w && PortIs(dport, b.data, b.model)
    }

    ghost function BackNow(): Writing
      requires rf.Valid() && BpValid(bp)
      reads fwd`prevNext, rf.regs, wb, exMem`shadow, memWb`shadow, stats`branchMispredicts, stats`branchCorrect,
            BpObjects(bp), ex
      ensures BackNow().t.Some? ==> TablesShape(BackNow().t.value)
    {
      Writing(fwd.prevNext, rf.Model(), wb.pending, wb.rd, wb.val, exMem.shadow, memWb.shadow, stats.branchMispredicts,
              stats.branchCorrect, BpModel(bp), ex.control, ex.redirect, ex.train, ex.trainPc, ex.trainCond,
              ex.trainTaken,
              ex.trainTarget)
    }

    /** What is left of BackNow once WB, forwarding and EX have latched. */
    ghost predicate WbExLatched(n: Writing)
      requires n.t.Some? ==> TablesShape(n.t.value)
      reads fwd`prev, rf.regs, exMem`reg, stats`branchMispredicts, stats`branchCorrect, BpObjects(bp)
    {
      && WbLatched(n.prev, Written(n.regs, n.pending, n.rd, n.val))
      && ExLatched(n.x, n.mispredicts + (if n.control && n.redirect then 1 else 0),
                   n.correct + (if n.control && !n.redirect then 1 else 0),
                   Taught(n.t, n.train, n.pc, n.cond, n.taken, n.target))
    }

    lemma NextEntry()
      requires rf.Valid() && BpValid(bp)
      ensures BackNow().w == memWb.shadow
    {
    }

    lemma BackAssembles(n: Writing, data: B.Bytes, model: H.Mem)
      requires (n.t.Some? ==> TablesShape(n.t.value)) && H.Shape(model)
      requires WbExLatched(n) && memWb.reg == n.w && PortIs(dport, data, H.Tick(model))
      ensures BackIs(LatchedBack(n, data, model))
    {
      hide WbLatched, ExLatched, PortIs, Taught, Written, H.Tick;
    }

    /** What EX has told fetch and decode. */
    ghost predicate Signalled(redirect: bool, target: Word)
      reads fetch`redirect, fetch`redirectTarget, decode`flush
    {
      fetch.redirect == redirect && (redirect ==> fetch.redirectTarget == target) && decode.flush == redirect
    }

    ghost function FrontNow(): Front
      reads fetch`pc, fetch`nextPc, fetch`fetchStall, hazard`stall, idEx`shadow, ifId`reg, ifId`shadow
    {
      Front(fetch.pc, fetch.nextPc, fetch.fetchStall, hazard.stall, idEx.shadow, ifId.reg, ifId.shadow)
    }

    /** The front end and its memory before they latch. */
    ghost predicate FrontIs(f: Front, data: B.Bytes, model: H.Mem)
      reads fetch`pc, fetch`nextPc, fetch`fetchStall, hazard`stall, idEx`shadow, ifId`reg, ifId`shadow, fetch`stall,
            decode`stall,
            iport.Repr
    {
      FrontNow() == f && !fetch.stall && !decode.stall && PortIs(iport, data, model)
    }

    lemma FrontStarts(data: B.Bytes, model: H.Mem)
      requires Valid() && PortIs(iport, data, model)
      ensures FrontIs(FrontNow(), data, model)
    {
      hide Sound, PortIs;
    }

    /** What the front end, once at f, has latched. */
    ghost predicate FrontLatched(f: Front, redirect: bool, target: Word)
      reads idEx`reg, ifId`reg, fetch`pc
    {
      && idEx.reg == (if redirect || f.hold then ID_BUBBLE else f.decoded)
      && ifId.reg == (if redirect then IF_BUBBLE else if f.hold then f.held else f.fetched)
      && fetch.pc == (if redirect then target else if f.hold || f.fetchStall then f.pc else f.nextPc)
    }

    method CommitWb()
      requires Sound()
      modifies wb`pending, rf.regs, fwd`prev
      ensures Sound() && BpModel(bp) == old(BpModel(bp))
      ensures WbLatched(old(fwd.prevNext), Written(old(rf.Model()), old(wb.pending), old(wb.rd), old(wb.val)))
    {
      hide Port.Valid, Port.Model, Port.Data, H.Shape, H.Tick, BpModel, BpValid, Wired, NoneIn, Parted,
           FetchStage.Valid, Parts;
      hide MemAccessStage.Valid, Hardware.Latches, RegFile.Valid, RegFile.Model, SetReg;
      BackApart();
      Wiring();
      wb.Commit();
      fwd.Commit();
    }

    method CommitEx()
      requires Valid()
      modifies ex`redirect, ex`train, ex`control, exMem`reg, fetch`redirect, fetch`redirectTarget, decode`flush,
               stats`branchCorrect, stats`branchMispredicts, BpObjects(bp)
      ensures Sound() && Signalled(old(ex.redirect), old(ex.redirectTarget))
      ensures ExLatched(old(exMem.shadow),
              old(stats.branchMispredicts) + (if old(ex.control) && old(ex.redirect) then 1 else 0),
                        old(stats.branchCorrect) + (if old(ex.control) && !old(ex.redirect) then 1 else 0),
                        Taught(old(BpModel(bp)), old(ex.train), old(ex.trainPc), old(ex.trainCond), old(ex.trainTaken),
                               old(ex.trainTarget)))
    {
      hide Port.Valid, Port.Model, Port.Data, H.Shape, H.Tick, BpModel, BpValid, Wired, NoneIn, Parted,
           FetchStage.Valid, Parts;
      hide MemAccessStage.Valid, Hardware.Latches, RegFile.Valid, RegFile.Model, SetReg, P.Update, Taught, Written;
      BackApart();
      FrontApart();
      Wiring();
      ex.Commit();
    }

    /** WB, the forwarding snapshot and EX commit. */
    method CommitBack()
      requires Valid()
      modifies wb`pending, rf.regs, fwd`prev, ex`redirect, ex`train, ex`control, exMem`reg, fetch`redirect,
               fetch`redirectTarget, decode`flush, stats`branchCorrect, stats`branchMispredicts, BpObjects(bp)
      ensures Sound() && Signalled(old(ex.redirect), old(ex.redirectTarget))
      ensures WbExLatched(old(BackNow()))
    {
      hide Port.Valid, Port.Model, Port.Data, H.Shape, H.Tick, BpModel, BpValid, Wired, NoneIn, Parted,
           FetchStage.Valid, Parts;
      hide MemAccessStage.Valid, Hardware.Latches, RegFile.Valid, RegFile.Model, SetReg, P.Update, Taught, Written;
      hide Sound, WbLatched, ExLatched, Signalled;
      BackParts();
      CommitWb();
      CommitEx();
    }

    /** WB, forwarding, EX and MEM. */
    method CommitLower(ghost data: B.Bytes, ghost model: H.Mem)
      requires Valid() && H.Shape(model) && PortIs(dport, data, model)
      modifies wb`pending, rf.regs, fwd`prev, ex`redirect, ex`train, ex`control, exMem`reg, fetch`redirect,
               fetch`redirectTarget, decode`flush, stats`branchCorrect, stats`branchMispredicts, BpObjects(bp),
               memWb`reg, dport.Repr
      ensures Sound() && Signalled(old(ex.redirect), old(ex.redirectTarget))
      ensures BackIs(LatchedBack(old(BackNow()), data, model))
    {
      hide Port.Valid, Port.Model, Port.Data, H.Shape, H.Tick, BpModel, BpValid, Wired, NoneIn, Parted,
           FetchStage.Valid, Parts;
      hide MemAccessStage.Valid, Hardware.Latches, RegFile.Valid, RegFile.Model, SetReg, P.Update, Taught, Written;
      hide Sound, PortIs, WbExLatched, Signalled, BackNow, BackIs, LatchedBack;
      BackParts();
      FrontApart();
      NextEntry();
      ghost var n := BackNow();
      CommitBack();
      CommitMem(data, model);
      BackAssembles(n, data, model);
    }

    method CommitMem(ghost data: B.Bytes, ghost model: H.Mem)
      requires Sound() && H.Shape(model) && PortIs(dport, data, model)
      modifies memWb`reg, dport.Repr
      ensures Sound() && PortIs(dport, data, H.Tick(model))
      ensures memWb.reg == old(memWb.shadow)
    {
      hide Port.Valid, Port.Model, Port.Data, H.Shape, H.Tick, BpModel, BpValid, Wired, NoneIn, Parted,
           FetchStage.Valid, Parts;
      hide MemAccessStage.Valid, Hardware.Latches, RegFile.Valid, RegFile.Model, SetReg, P.Update, Taught, Written;
      BackApart();
      Wiring();
      mem.Commit();
      Wiring();
    }

    /** The interlock signals, and ID commits, flushes or holds. */
    method CommitDecode(ghost redirect: bool, ghost target: Word, ghost b: Back)
      requires Sound() && Signalled(redirect, target) && !fetch.stall && !decode.stall
      requires BackIs(b)
      modifies hazard`stall, fetch`stall, decode`stall, decode`flush, idEx`reg, idEx`shadow
      ensures Sound() && fetch.stall == old(hazard.stall) && !decode.stall && !decode.flush
      ensures idEx.reg == if redirect || old(hazard.stall) then ID_BUBBLE else old(idEx.shadow)
      ensures BackIs(b)
    {
      hide Port.Valid, Port.Model, Port.Data, H.Shape, H.Tick, BpModel, BpValid, Wired, NoneIn, Parted,
           FetchStage.Valid, Parts;
      hide MemAccessStage.Valid, Hardware.Latches, RegFile.Valid, RegFile.Model, SetReg, P.Update, Taught, Written;
      hide BackIs, PortIs;
      FrontApart();
      BackApart();
      Wiring();
      Bubbles();
      hazard.Commit();
      decode.Commit();
    }

    method CommitFetch(ghost data: B.Bytes, ghost model: H.Mem, ghost b: Back)
      requires Sound() && H.Shape(model) && PortIs(iport, data, model)
      requires BackIs(b)
      modifies fetch`stall, fetch`redirect, fetch`pc, ifId`reg, ifId`shadow, iport.Repr
      ensures Sound() && PortIs(iport, data, H.Tick(model))
      ensures !fetch.stall && !fetch.redirect
      ensures ifId.reg == if old(fetch.redirect) then IF_BUBBLE else if old(fetch.stall) then old(ifId.reg)
        else old(ifId.shadow)
      ensures fetch.pc == if old(fetch.redirect) then old(fetch.redirectTarget)
                          else if old(fetch.stall) || old(fetch.fetchStall) then old(fetch.pc) else old(fetch.nextPc)
      ensures BackIs(b)
    {
      hide Port.Valid, Port.Model, Port.Data, H.Shape, H.Tick, BpModel, BpValid, Wired, NoneIn, Parted,
           FetchStage.Valid, Parts;
      hide MemAccessStage.Valid, Hardware.Latches, RegFile.Valid, RegFile.Model, SetReg, P.Update, Taught, Written;
      hide BackIs;
      FrontApart();
      BackApart();
      Wiring();
      fetch.Commit();
      Wiring();
    }

    /** The interlock, ID and IF commit. */
    method CommitFront(ghost redirect: bool, ghost target: Word, ghost f: Front, ghost data: B.Bytes,
                       ghost model: H.Mem, ghost b: Back)
      requires Sound() && Signalled(redirect, target) && H.Shape(model) && FrontIs(f, data, model)
      requires BackIs(b)
      modifies hazard`stall, fetch`stall, fetch`redirect, fetch`pc, decode`stall, decode`flush, idEx`reg, idEx`shadow,
               ifId`reg, ifId`shadow, iport.Repr
      ensures Valid() && PortIs(iport, data, H.Tick(model))
      ensures FrontLatched(f, redirect, target)
      ensures BackIs(b)
    {
      hide Port.Valid, Port.Model, Port.Data, H.Shape, H.Tick, BpModel, BpValid, Wired, NoneIn, Parted,
           FetchStage.Valid, Parts;
      hide MemAccessStage.Valid, Hardware.Latches, RegFile.Valid, RegFile.Model, SetReg, P.Update, Taught, Written;
      hide Sound, PortIs, BackIs;
      FrontApart();
      CommitDecode(redirect, target, b);
      CommitFetch(data, model, b);
    }

    /** The latch calls of a cycle in which MEM does not stall. */
    method CommitStages(ghost i: (B.Bytes, H.Mem), ghost d: (B.Bytes, H.Mem))
      requires Valid() && H.Shape(i.1) && H.Shape(d.1) && PortIs(iport, i.0, i.1) && PortIs(dport, d.0, d.1)
      modifies wb`pending, rf.regs, fwd`prev, ex`redirect, ex`train, ex`control, exMem`reg, fetch`redirect,
               fetch`redirectTarget, decode`flush, stats`branchCorrect, stats`branchMispredicts, BpObjects(bp),
               memWb`reg, dport.Repr, hazard`stall, fetch`stall, fetch`pc, decode`stall, idEx`reg, idEx`shadow,
               ifId`reg, ifId`shadow, iport.Repr
      ensures Valid() && PortIs(iport, i.0, H.Tick(i.1))
      ensures BackIs(LatchedBack(old(BackNow()), d.0, d.1))
      ensures FrontLatched(old(FrontNow()), old(ex.redirect), old(ex.redirectTarget))
    {
      hide Port.Valid, Port.Model, Port.Data, H.Shape, H.Tick, BpModel, BpValid, Wired, NoneIn, Parted,
           FetchStage.Valid, Parts;
      hide MemAccessStage.Valid, Hardware.Latches, RegFile.Valid, RegFile.Model, SetReg, P.Update, Taught, Written;
      hide WbLatched, ExLatched, Signalled, FrontLatched, FrontNow, FrontIs, Sound, PortIs, BackIs, BackNow,
           LatchedBack;
      BackParts();
      FrontApart();
      FrontStarts(i.0, i.1);
      ghost var f := FrontNow();
      ghost var redirect, target, b := ex.redirect, ex.redirectTarget, LatchedBack(BackNow(), d.0, d.1);
      CommitLower(d.0, d.1);
      CommitFront(redirect, target, f, i.0, i.1, b);
    }

    /** Freeze the EX instruction's forwarded operands before their producers drain. */
    method CaptureExOperands()
      requires Sound()
      modifies idEx`reg, idEx`shadow
      ensures Sound()
      ensures idEx.reg == Captured(old(idEx.reg), exMem.reg, memWb.reg, fwd.prev)
    {
      hide Port.Valid, Port.Model, Port.Data, H.Shape, H.Tick, H.Ready, BpModel, BpValid, Wired, FetchStage.Valid,
           Parts, MemAccessStage.Valid, Hardware.Latches;
      hide RegFile.Valid, RegFile.Model, SetReg, P.Update, Taught, Written;
      hide Pipeline.Resolve, ForwardUnit.Resolve;
      OutsideMemories();
      Wiring();
      var held := idEx.reg;
      if !held.valid { return; }
      held := held.(rs1Val := fwd.Resolve(held.rs1, held.rs1Val), rs2Val := fwd.Resolve(held.rs2, held.rs2Val));
      idEx.Write(held);
      idEx.Commit();
    }

    /** WB, forwarding and MEM commit while EX holds. */
    method CommitDrain(ghost data: B.Bytes, ghost model: H.Mem)
      requires Valid() && H.Shape(model) && PortIs(dport, data, model)
      modifies wb`pending, rf.regs, fwd`prev, memWb`reg, dport.Repr
      ensures Valid() && BackIs(StalledBack(old(BackNow()), exMem.reg, data, model))
    {
      hide Port.Valid, Port.Model, Port.Data, H.Shape, H.Tick, BpModel, BpValid, Wired, NoneIn, Parted,
           FetchStage.Valid, Parts;
      hide MemAccessStage.Valid, Hardware.Latches, RegFile.Valid, RegFile.Model, SetReg, P.Update, Taught, Written;
      hide Sound, PortIs, WbLatched, ExLatched, BackNow, StalledBack, BackIs;
      BackParts();
      FrontApart();
      NextEntry();
      ghost var n := BackNow();
      NowIs(n);
      CommitWb();
      CommitMem(data, model);
      BackStalls(n, exMem.reg, data, model);
    }

    /** The latch calls of a cycle in which MEM stalls: WB drains, EX, ID and IF hold. */
    method CommitStalled(ghost data: B.Bytes, ghost model: H.Mem)
      requires Valid() && H.Shape(model) && PortIs(dport, data, model)
      modifies idEx`reg, idEx`shadow, wb`pending, rf.regs, fwd`prev, memWb`reg, dport.Repr
      ensures Valid() && idEx.reg == Captured(old(idEx.reg), old(exMem.reg), old(memWb.reg), old(fwd.prev))
      ensures BackIs(StalledBack(old(BackNow()), old(exMem.reg), data, model))
    {
      hide Port.Valid, Port.Model, Port.Data, H.Shape, H.Tick, BpModel, BpValid, Wired, NoneIn, Parted,
           FetchStage.Valid, Parts;
      hide MemAccessStage.Valid, Hardware.Latches, RegFile.Valid, RegFile.Model, SetReg, P.Update, Taught, Written;
      hide Captured, Sound, PortIs, WbLatched, ExLatched, BackNow, StalledBack, BackIs;
      BackParts();
      FrontApart();
      CaptureExOperands();
      CommitDrain(data, model);
    }

    /** EX holds what it has, and WB is about to write what n says. */
    lemma NowIs(n: Writing)
      requires rf.Valid() && BpValid(bp) && n == BackNow()
      ensures ExLatched(exMem.reg, n.mispredicts, n.correct, n.t)
      ensures n.prev == fwd.prevNext && n.regs == rf.Model() && n.pending == wb.pending && n.rd == wb.rd
      ensures n.val == wb.val
    {
    }

    lemma BackStalls(n: Writing, x: ExMem, data: B.Bytes, model: H.Mem)
      requires H.Shape(model) && WbLatched(n.prev, Written(n.regs, n.pending, n.rd, n.val))
      requires ExLatched(x, n.mispredicts, n.correct, n.t) && memWb.reg == n.w && PortIs(dport, data, H.Tick(model))
      ensures BackIs(StalledBack(n, x, data, model))
    {
      hide WbLatched, ExLatched, PortIs, Written, H.Tick;
    }

    // ---- One cycle ----

    /** The registers hold s. */
    ghost predicate Holding(s: Pipe)
      reads fetch`pc, ifId`reg, idEx`reg, exMem`reg, memWb`reg, fwd`prev, rf.regs, stats`branchCorrect,
            stats`branchMispredicts
    {
      && fetch.pc == s.pc && ifId.reg == s.ifId && idEx.reg == s.idEx && exMem.reg == s.exMem && memWb.reg == s.memWb
      && fwd.prev == s.prev && rf.Valid() && rf.Model() == s.regs
      && stats.branchCorrect == s.correct && stats.branchMispredicts == s.mispredicts
    }

    /** The evaluate phase of a cycle that began in m. */
    ghost predicate Evaluated(prog: B.Bytes, m: Machine)
      requires WellFormed(m)
      reads fetch`pc, ifId`reg, idEx`reg, exMem`reg, memWb`reg, fwd`prev, rf.regs, stats`branchCorrect,
            stats`branchMispredicts,
            fetch`fetchStall, fetch`nextPc, ifId`shadow, idEx`shadow, fwd`prevNext, exMem`shadow,
            ex`redirect, ex`redirectTarget, ex`control, ex`train, ex`trainPc, ex`trainCond, ex`trainTaken,
            ex`trainTarget,
            mem`stalling, memWb`shadow, wb`pending, wb`rd, wb`val, hazard`stall
    {
      var s := m.pipe;
      var i := InputsOf(m);
      && Holding(s)
      && FrontDone(prog, s.pc, i.fetchReady, i.prediction, s.ifId, s.regs) && BackDone(s.idEx, s.exMem, s.memWb, s.prev)
      && MemDone(s.exMem, s.mem, i.dataReady) && EndDone(s.memWb, s.idEx, s.ifId)
    }

    /** The memories and the predictor after the evaluate phase of a cycle that began in m. */
    ghost predicate Requested(prog: B.Bytes, m: Machine)
      requires WellFormed(m) && Sound()
      reads rf.regs, iport.Repr, dport.Repr, BpObjects(bp)
    {
      && iport.Data() == prog && iport.Model() == FetchAsked(m)
      && dport.Data() == MemStore(m.pipe.exMem, m.pipe.mem, InputsOf(m).dataReady) && dport.Model() == DataAsked(m)
      && BpModel(bp) == m.bp
    }

    /** The model's parts. */
    lemma ModelHolds(m: Machine)
      requires Valid() && m == Model()
      ensures Holding(m.pipe) && iport.Valid() && dport.Valid() && rf.Valid() && BpValid(bp)
      ensures m.iport == iport.Model() && m.dport == dport.Model() && m.bp == BpModel(bp) && m.pipe.mem == dport.Data()
      ensures fetch.pc == m.pipe.pc && ifId.reg == m.pipe.ifId && idEx.reg == m.pipe.idEx && exMem.reg == m.pipe.exMem
      ensures memWb.reg == m.pipe.memWb && fwd.prev == m.pipe.prev && rf.Model() == m.pipe.regs
    {
      hide Port.Valid, Port.Model, Port.Data, H.Shape, BpModel, BpValid, Wired, RegFile.Valid, RegFile.Model;
      ValidParts();
    }

    method EvaluateCycle(ghost m: Machine)
      requires Valid() && m == Model()
      modifies fetch`fetchStall, fetch`nextPc, ifId`shadow, idEx`shadow, iport.Repr, fwd`prevNext, exMem`shadow,
               ex`redirect, ex`redirectTarget, ex`control, ex`train, ex`trainPc, ex`trainCond, ex`trainTaken,
               ex`trainTarget, mem`stalling, memWb`shadow, dport.Repr, wb`pending, wb`rd, wb`val, hazard`stall
      ensures Valid() && Evaluated(old(iport.Data()), m) && Requested(old(iport.Data()), m)
    {
      hide Port.Valid, Port.Model, Port.Data, H.Shape, H.Ready, H.IsServed, BpModel, BpValid, FetchStage.Valid, Parts,
           Wired;
      hide RegFile.Valid, RegFile.Model, MemAccessStage.Valid, HaltModel, FrontDone, BackDone, MemDone, EndDone,
           MemStore, IsMemOp, IsStore, TablesShape, P.Predict, Holding, Model, PipeModel, NoneIn, Parted, Sound;
      FrontApart();
      BackApart();
      ModelHolds(m);
      EvaluateStages();
    }

    /** The front end holds that of t. */
    ghost predicate FrontHolds(t: Pipe)
      reads idEx`reg, ifId`reg, fetch`pc
    {
      idEx.reg == t.idEx && ifId.reg == t.ifId && fetch.pc == t.pc
    }

    /** Everything has latched in the cycle that began in m, but the cycle counter has not been stepped. */
    ghost predicate Latched(prog: B.Bytes, m: Machine)
      requires WellFormed(m)
      reads idEx`reg, ifId`reg, fetch`pc, iport.Repr, fwd`prev, rf.regs, exMem`reg, stats`branchMispredicts,
            stats`branchCorrect,
            BpObjects(bp), memWb`reg, dport.Repr
    {
      var n := MachineTick(prog, m);
      FrontHolds(n.pipe) && BackIs(BackOf(n)) && PortIs(iport, prog, n.iport)
    }

    /** What is about to latch in a flowing cycle is what the model holds afterwards: the memories ... */
    lemma BeforeFlow(prog: B.Bytes, m: Machine)
      requires WellFormed(m) && m.pipe.halt.Running? && Valid() && Evaluated(prog, m) && Requested(prog, m)
      requires !mem.stalling
      ensures rf.Valid() && BpValid(bp) && !Stalling(m)
      ensures var n := MachineTick(prog, m);
        PortIs(iport, prog, FetchAsked(m)) && H.Tick(FetchAsked(m)) == n.iport
            && PortIs(dport, n.pipe.mem, DataAsked(m))
    {
      hide Port.Valid, Port.Model, Port.Data, H.Shape, H.Ready, H.Tick, H.IsServed, BpModel, BpValid,
           FetchStage.Valid, Parts, Wired, RegFile.Valid, RegFile.Model, MemAccessStage.Valid, MemStore, IsMemOp,
           IsStore, TablesShape, P.Predict, P.Update, Taught, Stalling, MachineTick, Sound, FetchOut, FetchNextPc,
           DecodeOut, ExecuteOut, MemOut, RedirectTarget, Redirects, LoadUse, InputsOf, FetchAsked, DataAsked,
           FlowStep, IsControl, HasWriteback, Trained, Operand1, Operand2, Resolve;
      hide FrontDone, BackDone, EndDone, Holding, MemStalls;
      SoundParts();
      FlowFields(prog, m.pipe, InputsOf(m));
      StallIs(m);
      TickFlows(prog, m);
    }

    /** ... the back end ... */
    lemma BeforeBack(prog: B.Bytes, m: Machine)
      requires WellFormed(m) && m.pipe.halt.Running? && Valid() && Evaluated(prog, m) && Requested(prog, m)
      requires !mem.stalling
      ensures rf.Valid() && BpValid(bp) && !Stalling(m)
      ensures var n := MachineTick(prog, m); LatchedBack(BackNow(), n.pipe.mem, DataAsked(m)) == BackOf(n)
    {
      hide Port.Valid, Port.Model, Port.Data, H.Shape, H.Ready, H.Tick, H.IsServed, BpModel, BpValid,
           FetchStage.Valid, Parts, Wired, RegFile.Valid, RegFile.Model, MemAccessStage.Valid, MemStore, IsMemOp,
           IsStore, TablesShape, P.Predict, P.Update, Taught, Stalling, MachineTick, Sound, FetchOut, FetchNextPc,
           DecodeOut, ExecuteOut, MemOut, RedirectTarget, Redirects, LoadUse, InputsOf, FetchAsked, DataAsked,
           FlowStep, IsControl, HasWriteback, Trained, Operand1, Operand2, Resolve;
      hide FrontDone, PortIs, MemStalls;
      SoundParts();
      FlowFields(prog, m.pipe, InputsOf(m));
      TaughtIsTrained(m.bp, m.pipe, ex.trainPc, ex.trainCond, ex.trainTaken, ex.trainTarget);
      StallIs(m);
      TickFlows(prog, m);
    }

    /** ... and the front end. */
    lemma BeforeFront(prog: B.Bytes, m: Machine)
      requires WellFormed(m) && m.pipe.halt.Running? && Valid() && Evaluated(prog, m) && Requested(prog, m)
      requires !mem.stalling
      ensures !Stalling(m) && Becomes(FrontNow(), ex.redirect, ex.redirectTarget, MachineTick(prog, m).pipe)
    {
      hide Port.Valid, Port.Model, Port.Data, H.Shape, H.Ready, H.Tick, H.IsServed, BpModel, BpValid,
           FetchStage.Valid, Parts, Wired, RegFile.Valid, RegFile.Model, MemAccessStage.Valid, MemStore, IsMemOp,
           IsStore, TablesShape, P.Predict, P.Update, Taught, Stalling, MachineTick, Sound, FetchOut, FetchNextPc,
           DecodeOut, ExecuteOut, MemOut, RedirectTarget, Redirects, LoadUse, InputsOf, FetchAsked, DataAsked,
           FlowStep, IsControl, HasWriteback, Trained, Operand1, Operand2, Resolve;
      hide PortIs, BackNow, LatchedBack, MemStalls, Requested;
      SoundParts();
      FlowFields(prog, m.pipe, InputsOf(m));
      StallIs(m);
      TickFlows(prog, m);
    }

    method FlowCycle(ghost prog: B.Bytes, ghost m: Machine)
      requires WellFormed(m) && m.pipe.halt.Running? && Valid() && Evaluated(prog, m) && Requested(prog, m)
      requires !mem.stalling
      modifies wb`pending, rf.regs, fwd`prev, ex`redirect, ex`train, ex`control, exMem`reg, fetch`redirect,
               fetch`redirectTarget, decode`flush, stats`branchCorrect, stats`branchMispredicts, BpObjects(bp),
               memWb`reg, dport.Repr, hazard`stall, fetch`stall, fetch`pc, decode`stall, idEx`reg, idEx`shadow,
               ifId`reg, ifId`shadow, iport.Repr
      ensures Valid() && Latched(prog, m)
    {
      hide Port.Valid, Port.Model, Port.Data, H.Shape, H.Tick, BpModel, BpValid, Wired, NoneIn, Parted,
           FetchStage.Valid, Parts;
      hide MemAccessStage.Valid, Hardware.Latches, RegFile.Valid, RegFile.Model, SetReg, P.Update, Taught, Written;
      hide Evaluated, Requested, MachineTick, BackIs, BackNow, FrontNow, LatchedBack, PortIs, Valid, Sound,
           FetchAsked, DataAsked;
      hide Stalling, WellFormed;
      BeforeFlow(prog, m);
      BeforeBack(prog, m);
      BeforeFront(prog, m);
      CommitStages((prog, FetchAsked(m)), (MachineTick(prog, m).pipe.mem, DataAsked(m)));
    }

    lemma BeforeStall(prog: B.Bytes, m: Machine)
      requires WellFormed(m) && m.pipe.halt.Running? && Valid() && Evaluated(prog, m) && Requested(prog, m)
      requires mem.stalling
      ensures rf.Valid() && BpValid(bp) && Stalling(m)
      ensures var n := MachineTick(prog, m);
        && PortIs(iport, prog, n.iport) && PortIs(dport, n.pipe.mem, DataAsked(m))
        && StalledBack(BackNow(), exMem.reg, n.pipe.mem, DataAsked(m)) == BackOf(n)
        && Captured(idEx.reg, exMem.reg, memWb.reg, fwd.prev) == n.pipe.idEx && ifId.reg == n.pipe.ifId
        && fetch.pc == n.pipe.pc
    {
      hide Port.Valid, Port.Model, Port.Data, H.Shape, H.Ready, H.Tick, H.IsServed, BpModel, BpValid,
           FetchStage.Valid, Parts, Wired;
      hide RegFile.Valid, RegFile.Model, MemAccessStage.Valid, MemStore, IsMemOp, IsStore, TablesShape, P.Predict,
           P.Update, Taught, Stalling, MachineTick;
      hide Sound, FetchOut, FetchNextPc, DecodeOut, ExecuteOut, MemOut, MemStalls, LoadUse, InputsOf, FetchAsked,
           DataAsked, Captured;
      hide StallStep, HasWriteback, Operand1, Operand2, Resolve, ExecuteStage.Resolved;
      SoundParts();
      StallFields(m.pipe, InputsOf(m).dataReady);
      StallIs(m);
      TickStalls(prog, m);
    }

    /** WB drains, EX keeps captured operands, ID and IF hold, and the fetch port is not ticked. */
    method StallCycle(ghost prog: B.Bytes, ghost m: Machine)
      requires WellFormed(m) && m.pipe.halt.Running? && Valid() && Evaluated(prog, m) && Requested(prog, m)
      requires mem.stalling
      modifies idEx`reg, idEx`shadow, wb`pending, rf.regs, fwd`prev, memWb`reg, dport.Repr
      ensures Valid() && Latched(prog, m)
    {
      hide Port.Valid, Port.Model, Port.Data, H.Shape, H.Tick, BpModel, BpValid, Wired, NoneIn, Parted,
           FetchStage.Valid, Parts;
      hide MemAccessStage.Valid, Hardware.Latches, RegFile.Valid, RegFile.Model, SetReg, P.Update, Taught, Written;
      hide Evaluated, Requested, MachineTick, BackIs, BackNow, StalledBack, PortIs, Sound, FetchAsked, DataAsked,
           Captured;
      hide Stalling, WellFormed;
      FrontApart();
      BackApart();
      BeforeStall(prog, m);
      CommitStalled(MachineTick(prog, m).pipe.mem, DataAsked(m));
    }

    /** The halt flags, which the source sets before anything latches. */
    method Retire()
      modifies this`halted, this`haltReason, this`haltPc, this`haltRaw, this`trace, stats`instructions
      ensures var w := memWb.reg;
        && HaltModel() == (if w.valid && IsHalting(w.op) then Stopped(w.pc, w.raw, w.op) else old(HaltModel()))
        && trace == old(trace) + (if w.valid then [CommitOf(w)] else [])
        && stats.instructions == old(stats.instructions) + (if w.valid then 1 else 0)
    {
      hide CommitOf;
      var wbIn := memWb.reg;
      if wbIn.valid { trace := trace + [CommitOf(wbIn)]; }
      if wbIn.valid && (wbIn.op.EBREAK? || wbIn.op.ILLEGAL?) {
        halted := true;
        haltReason := if wbIn.op.EBREAK? then Ebreak else Illegal;
        haltPc := wbIn.pc;
        haltRaw := wbIn.raw;
      }
      if wbIn.valid { stats.instructions := stats.instructions + 1; }
    }

    /** What the latch phase leaves of a cycle that began in m is the model after it. */
    lemma ModelIs(prog: B.Bytes, m: Machine)
      requires Valid() && WellFormed(m) && m.pipe.halt.Running? && Latched(prog, m)
      requires HaltModel() == HaltAfter(m.pipe) && stats.cycles == m.pipe.cycles + 1
      requires stats.instructions == m.pipe.instructions + (if m.pipe.memWb.valid then 1 else 0)
      ensures iport.Data() == prog && Model() == MachineTick(prog, m)
    {
      hide Port.Valid, Port.Model, Port.Data, H.Shape, BpModel, BpValid, FetchStage.Valid, Wired, HaltModel,
           HaltAfter;
      hide RegFile.Valid, RegFile.Model, MemAccessStage.Valid, TablesShape, MachineTick;
      TickCounters(prog, m);
    }

    /** Between the two phases: the halt flags and the counters are set, nothing has latched. */
    ghost predicate Counted(m: Machine)
      reads this`halted, this`haltReason, this`haltPc, this`haltRaw, stats`cycles, stats`instructions
    {
      && HaltModel() == HaltAfter(m.pipe) && stats.cycles == m.pipe.cycles
      && stats.instructions == m.pipe.instructions + (if m.pipe.memWb.valid then 1 else 0)
    }

    method BeginCycle(ghost m: Machine)
      requires Valid() && m == Model()
      modifies fetch`fetchStall, fetch`nextPc, ifId`shadow, idEx`shadow, iport.Repr, fwd`prevNext, exMem`shadow,
               ex`redirect, ex`redirectTarget, ex`control, ex`train, ex`trainPc, ex`trainCond, ex`trainTaken,
               ex`trainTarget, mem`stalling, memWb`shadow, dport.Repr, wb`pending, wb`rd, wb`val, hazard`stall,
               this`halted, this`haltReason, this`haltPc, this`haltRaw, this`trace, stats`instructions
      ensures Valid() && Evaluated(old(iport.Data()), m) && Requested(old(iport.Data()), m) && Counted(m)
      ensures trace == old(trace) + (if m.pipe.memWb.valid then [CommitOf(m.pipe.memWb)] else [])
    {
      hide Port.Valid, Port.Model, Port.Data, H.Shape, H.Ready, H.Tick, H.IsServed, BpModel, BpValid,
           FetchStage.Valid, Wired;
      hide RegFile.Valid, RegFile.Model, MemAccessStage.Valid, MemStore, IsMemOp, IsStore, TablesShape, Stalling,
           MachineTick, Trained;
      hide Sound, InputsOf, FetchAsked, DataAsked, StallStep, FlowStep, CommitOf, IsHalting, FrontDone, BackDone,
           MemDone, EndDone, Evaluated, Requested, Holding;
      Outside();
      EvaluateCycle(m);
      Retire();
    }

    method FinishFlow(ghost prog: B.Bytes, ghost m: Machine)
      requires WellFormed(m) && m.pipe.halt.Running? && Valid() && Evaluated(prog, m) && Requested(prog, m)
      requires Counted(m)
      requires !mem.stalling
      modifies wb`pending, rf.regs, fwd`prev, ex`redirect, ex`train, ex`control, exMem`reg, fetch`redirect,
               fetch`redirectTarget, decode`flush, stats`branchCorrect, stats`branchMispredicts, BpObjects(bp),
               memWb`reg, dport.Repr, hazard`stall, fetch`stall, fetch`pc, decode`stall, idEx`reg, idEx`shadow,
               ifId`reg, ifId`shadow, iport.Repr, stats`cycles
      ensures Valid() && iport.Data() == prog && Model() == MachineTick(prog, m)
    {
      hide Port.Valid, Port.Model, Port.Data, H.Shape, H.Tick, BpModel, BpValid, Wired, NoneIn, Parted,
           FetchStage.Valid, Parts;
      hide MemAccessStage.Valid, Hardware.Latches, RegFile.Valid, RegFile.Model, SetReg, P.Update, Taught, Written;
      hide MachineTick, WellFormed;
      hide Sound, StallStep, FlowStep, CommitOf, IsHalting, FrontDone, BackDone, MemDone, EndDone, Evaluated,
           Requested, Holding, Valid;
      hide Latched, HaltAfter;
      BackApartValid();
      FlowCycle(prog, m);
      stats.cycles := stats.cycles + 1;
      ModelIs(prog, m);
    }

    method FinishStall(ghost prog: B.Bytes, ghost m: Machine)
      requires WellFormed(m) && m.pipe.halt.Running? && Valid() && Evaluated(prog, m) && Requested(prog, m)
      requires Counted(m)
      requires mem.stalling
      modifies idEx`reg, idEx`shadow, wb`pending, rf.regs, fwd`prev, memWb`reg, dport.Repr, stats`cycles
      ensures Valid() && iport.Data() == prog && Model() == MachineTick(prog, m)
    {
      hide Port.Valid, Port.Model, Port.Data, H.Shape, H.Tick, BpModel, BpValid, Wired, NoneIn, Parted,
           FetchStage.Valid, Parts;
      hide MemAccessStage.Valid, Hardware.Latches, RegFile.Valid, RegFile.Model, SetReg, P.Update, Taught, Written;
      hide MachineTick, WellFormed;
      hide Sound, StallStep, FlowStep, CommitOf, IsHalting, FrontDone, BackDone, MemDone, EndDone, Evaluated,
           Requested, Holding, Valid;
      hide Latched, HaltAfter;
      BackApartValid();
      StallCycle(prog, m);
      stats.cycles := stats.cycles + 1;
      ModelIs(prog, m);
    }

    lemma BackApartValid()
      requires Valid()
      ensures stats !in iport.Repr && stats !in dport.Repr && this !in iport.Repr && this !in dport.Repr
      ensures stats !in BpObjects(bp)
      ensures this !in BpObjects(bp)
    {
    }

    lemma HaltedModel(prog: B.Bytes)
      requires Valid()
      ensures halted == Model().pipe.halt.Stopped? && (halted ==> MachineTick(prog, Model()) == Model())
      ensures Retired(Model()) == if !halted && Model().pipe.memWb.valid then [CommitOf(Model().pipe.memWb)] else []
    {
      hide Port.Valid, Port.Model, Port.Data, H.Shape, BpModel, BpValid, Wired, RegFile.Valid, RegFile.Model,
           CommitOf;
    }

    /** One clock cycle; false once halted. */
    method Tick() returns (running: bool)
      requires Valid()
      modifies Parts(), iport.Repr, dport.Repr
      ensures Valid() && iport.Data() == old(iport.Data())
      ensures Model() == MachineTick(old(iport.Data()), old(Model()))
      ensures trace == old(trace) + Retired(old(Model())) && running == !halted
    {
      hide Port.Valid, Port.Model, Port.Data, H.Shape, BpModel, BpValid, Wired, RegFile.Valid, RegFile.Model,
           TablesShape, MachineTick;
      hide Sound, Valid, CommitOf, Evaluated, Requested, Counted, Model, PipeModel, NoneIn, Parted;
      ghost var m := Model();
      BackApartValid();
      ValidParts();
      HaltedModel(iport.Data());
      if halted { return false; }
      BeginCycle(m);
      var memStall := mem.stalling;
      if memStall { FinishStall(old(iport.Data()), m); } else { FinishFlow(old(iport.Data()), m); }
      running := !halted;
    }

    /** Tick until halted or out of cycles; n is the number of ticks. */
    method Run(maxCycles: nat) returns (ghost n: nat)
      requires Valid()
      modifies Parts(), iport.Repr, dport.Repr
      ensures Valid() && iport.Data() == old(iport.Data())
      ensures Model() == Ticks(old(iport.Data()), old(Model()), n)
      ensures trace == old(trace) + CommitTrace(old(iport.Data()), old(Model()), n)
      ensures halted || stats.cycles >= maxCycles
      ensures stats.cycles == old(stats.cycles) + n && (n > 0 ==> stats.cycles <= maxCycles)
      ensures RunsThrough(old(iport.Data()), old(Model()), n)
    {
      hide Port.Valid, Port.Model, Port.Data, H.Shape, BpModel, BpValid, Wired, RegFile.Valid, RegFile.Model,
           TablesShape, MachineTick;
      hide Sound, Valid, CommitOf, Model, PipeModel, Retired, CommitTrace, Ticks, WellFormed, RunsThrough;
      ghost var m := Model();
      ValidParts();
      ghost var prog := iport.Data();
      n := 0;
      NoTicks(prog, m);
      RunsNone(prog, m);
      while !halted && stats.cycles < maxCycles
        invariant Valid() && iport.Valid() && iport.Data() == prog && WellFormed(m)
        invariant Model() == Ticks(prog, m, n) && trace == old(trace) + CommitTrace(prog, m, n)
        invariant stats.cycles == old(stats.cycles) + n && (n > 0 ==> stats.cycles <= maxCycles)
        invariant RunsThrough(prog, m, n)
        decreases if halted then 0 else 1, maxCycles - stats.cycles
      {
        TickOfRun(prog, m, n, old(trace));
        n := n + 1;
      }
    }

    /** Tick n of a run from m. */
    method TickOfRun(ghost prog: B.Bytes, ghost m: Machine, ghost n: nat, ghost before: seq<Commit>)
      requires Valid() && iport.Valid() && iport.Data() == prog && WellFormed(m) && !halted && RunsThrough(prog, m, n)
      requires Model() == Ticks(prog, m, n) && trace == before + CommitTrace(prog, m, n)
      modifies Parts(), iport.Repr, dport.Repr
      ensures Valid() && iport.Valid() && iport.Data() == prog && stats.cycles == old(stats.cycles) + 1
      ensures Model() == Ticks(prog, m, n + 1) && trace == before + CommitTrace(prog, m, n + 1)
      ensures RunsThrough(prog, m, n + 1)
    {
      hide Port.Valid, Port.Model, Port.Data, H.Shape, BpModel, BpValid, Wired, RegFile.Valid, RegFile.Model,
           TablesShape, MachineTick;
      hide Sound, Valid, CommitOf, Model, PipeModel, Retired, CommitTrace, Ticks, WellFormed, RunsThrough;
      ghost var r := Model();
      Cycles();
      var running := Tick();
      Cycles();
      ValidParts();
      TickCounts(prog, r);
      RunsOn(prog, m, n);
      MoreTicks(prog, m, n);
    }

    lemma Cycles()
      requires Valid()
      ensures stats.cycles == Model().pipe.cycles && halted == Model().pipe.halt.Stopped?
    {
      hide Port.Valid, Port.Model, Port.Data, H.Shape, BpModel, BpValid, Wired, RegFile.Valid, RegFile.Model;
    }

    /** Store words into instruction memory from base on. */
    method LoadProgram(words: seq<Word>)
      requires Valid()
      modifies iport.Repr
      ensures Valid() && iport.Data() == Loaded(old(iport.Data()), base, words) && Model() == old(Model())
    {
      hide Port.Valid, Port.Model, Port.Data, H.Shape, BpModel, BpValid, Wired, RegFile.Valid, RegFile.Model,
           TablesShape;
      hide Sound, Valid, Model, PipeModel, B.StoreWord, Loaded, WordAt;
      ValidParts();
      ghost var m, bytes := Model(), iport.Data();
      var addr, k := base, 0;
      LoadNothing(bytes, base);
      while k < |words|
        invariant k <= |words| && addr == WordAt(base, k) && Valid() && iport.Valid() && Model() == m
        invariant iport.Data() == Loaded(bytes, base, words[..k])
      {
        StoreInstruction(addr, words[k]);
        ValidParts();
        LoadMore(bytes, base, words, k);
        addr, k := Add(addr, 4), k + 1;
      }
      assert words[..k] == words;
    }

    method StoreInstruction(addr: Word, v: Word)
      requires Valid()
      modifies iport.Repr
      ensures Valid() && iport.Data() == B.StoreWord(old(iport.Data()), addr, v) && Model() == old(Model())
    {
      hide Port.Valid, Port.Model, Port.Data, H.Shape, BpModel, BpValid, Wired, RegFile.Valid, RegFile.Model,
           TablesShape, B.StoreWord;
      Outside();
      iport.StoreWord(addr, v);
    }

    /** A constructed core is a model core at its start, with a cold, quiet data side. */
    lemma EmptyStarts(cfg: SimConfig)
      requires Valid() && Parted().Empty(cfg.ramBase) && Memories(iport, dport, bp).As(cfg) && !halted
      ensures iport.Valid() && iport.Data() == map[] && stats.cycles == 0
      ensures var m := Model();
        && Starts(Boot(cfg.ramBase), m) && cfg.Built(m.iport, m.dport, m.bp)
    {
      hide Port.Valid, Port.Model, Port.Data, H.Shape, BpModel, Hardware.Wired, TablesShape, NewTables, PortAs;
      assert rf.Model() == seq(32, _ => 0);
      ValidParts();
      BpTables(bp);
    }

    lemma Registers()
      requires Valid()
      ensures Model().pipe == PipeModel() && rf.Valid() && rf.Model() == Model().pipe.regs
      ensures halted == Model().pipe.halt.Stopped?
      ensures PipeModel().cycles == stats.cycles && PipeModel().halt == HaltModel()
    {
      hide Port.Valid, Port.Model, Port.Data, H.Shape, BpModel, BpValid, Wired, RegFile.Valid, RegFile.Model;
    }

    lemma ValidParts()
      requires Valid()
      ensures iport.Valid() && dport.Valid() && rf.Valid() && BpValid(bp)
    {
    }

    lemma SoundParts()
      requires Sound()
      ensures BpValid(bp) && rf.Valid() && iport.Valid() && dport.Valid()
      ensures ex.bp == bp && BpModel(bp).Some? == bp.Some?
    {
    }

    lemma Bubbles()
      requires Parted().Latches()
      ensures ifId.bubble == IF_BUBBLE && idEx.bubble == ID_BUBBLE && exMem.bubble == EX_BUBBLE
      ensures memWb.bubble == MEM_BUBBLE
    {
    }
  }
}
