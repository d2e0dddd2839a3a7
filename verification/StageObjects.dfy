/** The latches, the register file, the predictor and the pipeline stages in their own form: objects
    that evaluate into shadow registers and then latch (include/cpusim/uarch/latch.h,
    include/cpusim/regfile.h, src/uarch).  Every method is proved against the functions of Pipeline
    and Predictor. */
module StageObjects {
  import opened Words
  import opened Bits
  import opened Encoding
  import opened Decoder
  import opened Alu
  import B = ByteMemory
  import opened Interpreter
  import opened Pipeline
  import H = Hierarchy
  import P = Predictor
  import opened Predictor
  import opened MemoryObjects

  // ---- Latch ----

  class Latch<T> {
    const bubble: T
    var reg: T
    var shadow: T

    constructor (bubble: T)
      ensures this.bubble == bubble == reg == shadow
    {
      this.bubble, reg, shadow := bubble, bubble, bubble;
    }

    method Write(v: T)
      modifies this`shadow
      ensures shadow == v
    {
      shadow := v;
    }

    method Commit()
      modifies this`reg
      ensures reg == shadow
    {
      reg := shadow;
    }

    method Flush()
      modifies this`reg, this`shadow
      ensures reg == shadow == bubble
    {
      reg, shadow := bubble, bubble;
    }
  }

  // ---- RegFile ----

  class RegFile {
    const regs: array<Word>

    ghost predicate Valid()
      reads regs
    {
      regs.Length == 32 && regs[0] == 0
    }

    ghost function Model(): Regs
      requires Valid()
      reads regs
    {
      regs[..]
    }

    constructor ()
      ensures Valid() && fresh(regs) && forall i | 0 <= i < 32 :: regs[i] == 0
    {
      regs := new Word[32](_ => 0);
    }

    function Read(i: Reg): (v: Word)
      requires Valid()
      reads regs
      ensures v == Model()[i]
    {
      regs[i]
    }

    method Write(i: Reg, v: Word)
      requires Valid()
      modifies regs
      ensures Valid() && Model() == SetReg(old(Model()), i, v)
    {
      if i == 0 { return; }
      regs[i] := v;
    }
  }

  // ---- BranchPredictor ----

  class BranchPredictor {
    const bhtBits: nat
    const btbBits: nat
    const bht: array<Counter>
    const btb: array<BtbEntry>

    ghost predicate Valid()
    {
      bht.Length == Pow2(bhtBits) && btb.Length == Pow2(btbBits)
    }

    ghost function Model(): (t: Tables)
      requires Valid()
      reads bht, btb
      ensures TablesShape(t)
    {
      Tables(bhtBits, btbBits, bht[..], btb[..])
    }

    constructor (bhtEntries: nat, btbEntries: nat)
      requires (exists k: nat :: IsPow2(bhtEntries, k)) && (exists k: nat :: IsPow2(btbEntries, k))
      ensures Valid() && fresh(bht) && fresh(btb) && Model() == NewTables(bhtBits, btbBits)
      ensures bht.Length == bhtEntries && btb.Length == btbEntries
    {
      var h := Log2Exact(bhtEntries);
      var b := Log2Exact(btbEntries);
      bhtBits, btbBits := h, b;
      bht := new Counter[bhtEntries](_ => 1);
      btb := new BtbEntry[btbEntries](_ => BtbEntry(false, 0, 0, false));
    }

    // Instructions are word-aligned, so drop the low 2 pc bits.
    function BhtSlot(pc: Word): (i: nat)
      ensures i < Pow2(bhtBits)
    {
      LowBits(Shr(pc, 2), bhtBits)
    }

    function BtbSlot(pc: Word): (i: nat)
      ensures i < Pow2(btbBits)
    {
      LowBits(Shr(pc, 2), btbBits)
    }

    function Tag(pc: Word): nat { Shr(Shr(pc, 2), btbBits) }

    function Predict(pc: Word): (p: Prediction)
      requires Valid()
      reads bht, btb
      ensures p == P.Predict(Model(), pc)
    {
      var e := btb[BtbSlot(pc)];
      if !e.valid || e.tag != Tag(pc) then Prediction(false, 0)
      else Prediction(if e.cond then bht[BhtSlot(pc)] >= 2 else true, e.target)
    }

    method Update(pc: Word, cond: bool, taken: bool, target: Word)
      requires Valid()
      modifies bht, btb
      ensures Valid() && Model() == P.Update(old(Model()), pc, cond, taken, target)
    {
      ghost var t := Model();
      if cond {
        var i := BhtSlot(pc);
        var c := bht[i];
        if taken {
          if c < 3 { bht[i] := c + 1; }
        } else {
          if c > 0 { bht[i] := c - 1; }
        }
      }
      btb[BtbSlot(pc)] := BtbEntry(true, Tag(pc), target, cond);
      assert btb[..] == t.btb[BtbIndex(t, pc) := BtbEntry(true, BtbTag(t, pc), target, cond)];
      assert bht[..] == if cond then t.bht[BhtIndex(t, pc) := Bump(t.bht[BhtIndex(t, pc)], taken)] else t.bht;
    }
  }

  // ---- The predictor a stage may have ----

  ghost predicate BpValid(bp: Option<BranchPredictor>) { bp.Some? ==> bp.value.Valid() }

  ghost function BpObjects(bp: Option<BranchPredictor>): set<object> {
    if bp.Some? then {bp.value.bht, bp.value.btb} else {}
  }

  ghost function BpModel(bp: Option<BranchPredictor>): (t: Option<Tables>)
    requires BpValid(bp)
    reads BpObjects(bp)
    ensures t.Some? == bp.Some? && (t.Some? ==> TablesShape(t.value))
  {
    if bp.Some? then Some(bp.value.Model()) else None
  }

  /** What the predictor says, or not taken without one. */
  function Guessed(t: Option<Tables>, pc: Word): Prediction
    requires t.Some? ==> TablesShape(t.value)
  {
    if t.Some? then P.Predict(t.value, pc) else Prediction(false, 0)
  }

  function Taught(t: Option<Tables>, train: bool, pc: Word, cond: bool, taken: bool, target: Word): Option<Tables>
    requires t.Some? ==> TablesShape(t.value)
  {
    if train && t.Some? then Some(P.Update(t.value, pc, cond, taken, target)) else t
  }

  // ---- FetchStage ----

  class FetchStage {
    const imem: Port
    const out: Latch<IfId>
    const bp: Option<BranchPredictor>
    var pc: Word
    var nextPc: Word
    var stall: bool
    var redirect: bool
    var redirectTarget: Word
    var fetchStall: bool

    ghost predicate Valid()
      reads imem.Repr
    {
      imem.Valid() && BpValid(bp) && out.bubble == IF_BUBBLE
      && this !in imem.Repr && out !in imem.Repr && BpObjects(bp) !! imem.Repr
    }

    constructor (imem: Port, out: Latch<IfId>, resetPc: Word, bp: Option<BranchPredictor>)
      requires imem.Valid() && BpValid(bp) && out.bubble == IF_BUBBLE && out !in imem.Repr && BpObjects(bp) !! imem.Repr
      ensures Valid() && this.imem == imem && this.out == out && this.bp == bp && pc == resetPc
      ensures !stall && !redirect && !fetchStall
    {
      this.imem, this.out, this.bp, pc, nextPc := imem, out, bp, resetPc, 0;
      stall, redirect, redirectTarget, fetchStall := false, false, 0, false;
    }

    /** Called by the hazard unit. */
    method SetStall()
      modifies this`stall
      ensures stall
    {
      stall := true;
    }

    /** Called by EX when a branch or jump is resolved. */
    method SetRedirect(target: Word)
      modifies this`redirect, this`redirectTarget
      ensures redirect && redirectTarget == target
    {
      redirect, redirectTarget := true, target;
    }

    method Evaluate()
      requires Valid()
      modifies this`fetchStall, this`nextPc, out`shadow, imem.Repr
      ensures Valid() && imem.Data() == old(imem.Data()) && imem.Model() == H.Ready(old(imem.Model()), pc, false)
      ensures var i := Inputs(H.IsServed(imem.Model()), false, Guessed(BpModel(bp), pc));
        && fetchStall == !i.fetchReady && out.shadow == FetchOut(imem.Data(), pc, i)
        && nextPc == (if i.fetchReady && redirect then redirectTarget else FetchNextPc(pc, i))
    {
      hide Port.Valid, Port.Model, Port.Data, H.Shape, H.Ready, H.IsServed, B.LoadWord, BpModel, Guessed;
      var served := imem.Ready(pc, false);
      fetchStall := !served;
      if fetchStall {
        out.Write(IF_BUBBLE);
        nextPc := pc;
      } else {
        Present();
      }
    }

    /** The served cycle: load the word and predict its successor. */
    method Present()
      requires Valid()
      modifies this`nextPc, out`shadow
      ensures out.shadow == IfId(pc, Fetch(imem.Data(), pc), true, Guessed(BpModel(bp), pc).taken)
      ensures nextPc == if redirect then redirectTarget
        else if Guessed(BpModel(bp), pc).taken then Guessed(BpModel(bp), pc).target else Add(pc, 4)
    {
      hide Port.Valid, Port.Model, Port.Data, Port.LoadWord, H.Shape, P.Predict, B.LoadWord, TablesShape,
           BranchPredictor.Model, BranchPredictor.Predict, ToRaw;
      var raw := ToRaw(imem.LoadWord(pc));
      var predictedTaken, predictedPc := false, Add(pc, 4);
      if bp.Some? {
        var p := bp.value.Predict(pc);
        if p.taken { predictedTaken, predictedPc := true, p.target; }
      }
      out.Write(IfId(pc, raw, true, predictedTaken));
      nextPc := if redirect then redirectTarget else predictedPc;
    }

    method Commit()
      requires Valid()
      modifies this`stall, this`redirect, this`pc, out`reg, out`shadow, imem.Repr
      ensures Valid() && imem.Data() == old(imem.Data()) && imem.Model() == H.Tick(old(imem.Model()))
      ensures !stall && !redirect
      ensures out.reg == if old(redirect) then IF_BUBBLE else if old(stall) then old(out.reg) else old(out.shadow)
      ensures pc == if old(redirect) then redirectTarget else if old(stall) || fetchStall then old(pc) else nextPc
    {
      hide Port.Valid, Port.Model, Port.Data, H.Shape, H.Tick;
      imem.Tick();
      if redirect {
        out.Flush();
        pc := redirectTarget;
      } else if !stall {
        out.Commit();
        if !fetchStall { pc := nextPc; }
      }
      stall, redirect := false, false;
    }
  }

  // ---- DecodeStage ----

  class DecodeStage {
    const rf: RegFile
    const inp: Latch<IfId>
    const out: Latch<IdEx>
    var stall: bool
    var flush: bool

    constructor (rf: RegFile, inp: Latch<IfId>, out: Latch<IdEx>)
      ensures this.rf == rf && this.inp == inp && this.out == out && !stall && !flush
    {
      this.rf, this.inp, this.out, stall, flush := rf, inp, out, false, false;
    }

    method SetFlush()
      modifies this`flush
      ensures flush
    {
      flush := true;
    }

    method Evaluate()
      requires rf.Valid() && out.bubble == ID_BUBBLE
      modifies out`shadow
      ensures out.shadow == DecodeOut(inp.reg, rf.Model())
    {
      var fetch := inp.reg;
      if !fetch.valid {
        out.Write(ID_BUBBLE);
        return;
      }
      var insn := Decode(fetch.raw);
      out.Write(IdEx(fetch.pc, fetch.raw, insn.op, insn.rd, insn.rs1, insn.rs2, insn.imm,
                     rf.Read(insn.rs1), rf.Read(insn.rs2), true, fetch.predictedTaken));
    }

    method Commit()
      requires out.bubble == ID_BUBBLE
      modifies this`stall, this`flush, out`reg, out`shadow
      ensures !stall && !flush
      ensures out.reg == if old(flush) then ID_BUBBLE else if old(stall) then old(out.reg) else old(out.shadow)
    {
      if flush {
        out.Flush();
      } else if !stall {
        out.Commit();
      }
      stall, flush := false, false;
    }
  }

  // ---- ForwardUnit ----

  class ForwardUnit {
    const exMem: Latch<ExMem>
    const memWb: Latch<MemWb>
    var prev: MemWb
    var prevNext: MemWb

    constructor (exMem: Latch<ExMem>, memWb: Latch<MemWb>)
      ensures this.exMem == exMem && this.memWb == memWb && prev == MEM_BUBBLE
    {
      this.exMem, this.memWb, prev, prevNext := exMem, memWb, MEM_BUBBLE, MEM_BUBBLE;
    }

    method Evaluate()
      modifies this`prevNext
      ensures prevNext == memWb.reg
    {
      prevNext := memWb.reg;
    }

    method Commit()
      modifies this`prev
      ensures prev == prevNext
    {
      prev := prevNext;
    }

    function Resolve(reg: Reg, cur: Word): (v: Word)
      reads this`prev, exMem`reg, memWb`reg
      ensures v == Pipeline.Resolve(reg, cur, exMem.reg, memWb.reg, prev)
    {
      var ex, wb := exMem.reg, memWb.reg;
      if reg == 0 then 0
      else if ex.valid && ex.rd == reg then ex.aluOut
      else if wb.valid && wb.rd == reg then wb.wbVal
      else if prev.valid && prev.rd == reg then prev.wbVal
      else cur
    }
  }

  // ---- ExecuteStage ----

  class SimStats {
    var cycles: nat
    var instructions: nat
    var branchCorrect: nat
    var branchMispredicts: nat

    constructor ()
      ensures cycles == instructions == branchCorrect == branchMispredicts == 0
    {
      cycles, instructions, branchCorrect, branchMispredicts := 0, 0, 0, 0;
    }
  }

  class ExecuteStage {
    const inp: Latch<IdEx>
    const out: Latch<ExMem>
    const fwd: ForwardUnit
    const fetch: FetchStage
    const decode: DecodeStage
    const bp: Option<BranchPredictor>
    const stats: SimStats
    var redirect: bool
    var redirectTarget: Word
    var control: bool
    var train: bool
    var trainPc: Word
    var trainCond: bool
    var trainTaken: bool
    var trainTarget: Word

    constructor (inp: Latch<IdEx>, out: Latch<ExMem>, fwd: ForwardUnit, fetch: FetchStage, decode: DecodeStage,
                 bp: Option<BranchPredictor>, stats: SimStats)
      ensures this.inp == inp && this.out == out && this.fwd == fwd && this.fetch == fetch && this.decode == decode
      ensures this.bp == bp && this.stats == stats && !redirect && !control && !train
    {
      this.inp, this.out, this.fwd, this.fetch := inp, out, fwd, fetch;
      this.decode, this.bp, this.stats := decode, bp, stats;
      redirect, redirectTarget, control, train := false, 0, false, false;
      trainPc, trainCond, trainTaken, trainTarget := 0, false, false, 0;
    }

    /** What evaluate leaves for latch to apply. */
    ghost predicate Resolved(x: IdEx, v1: Word, v2: Word)
      reads this`redirect, this`redirectTarget, this`control, this`train, this`trainPc, this`trainCond,
            this`trainTaken, this`trainTarget
    {
      && redirect == Redirects(x, v1, v2) && (redirect ==> redirectTarget == RedirectTarget(x, v1, v2))
      && control == IsControl(x) && train == (bp.Some? && Trains(x))
      && (train ==> trainPc == x.pc && trainCond == IsCondBranch(x.op) && trainTaken == ActuallyTaken(x.op, v1, v2)
                    && trainTarget == Target(x.op, x.pc, x.imm, v1))
    }

    method Evaluate()
      modifies this`redirect, this`redirectTarget, this`control, this`train, this`trainPc, this`trainCond,
               this`trainTaken, this`trainTarget, out`shadow
      ensures var x := inp.reg; var v1 := fwd.Resolve(x.rs1, x.rs1Val); var v2 := fwd.Resolve(x.rs2, x.rs2Val);
        out.shadow == ExecuteOut(x, v1, v2) && Resolved(x, v1, v2)
    {
      hide Pipeline.Resolve, ForwardUnit.Resolve, ActuallyTaken, Target, AluResult, Resolved;
      var id := inp.reg;
      if !id.valid {
        out.Write(EX_BUBBLE);
        Bubble();
        return;
      }
      var rs1, rs2 := fwd.Resolve(id.rs1, id.rs1Val), fwd.Resolve(id.rs2, id.rs2Val);
      var aluOut, taken, target := Operate(id, rs1, rs2);
      Settle(id, rs1, rs2, taken, target);
      out.Write(ExMem(id.pc, id.raw, id.op, id.rd, aluOut, rs2, taken, target, true));
    }

    method Bubble()
      requires !inp.reg.valid
      modifies this`redirect, this`redirectTarget, this`control, this`train, this`trainPc, this`trainCond,
               this`trainTaken, this`trainTarget
      ensures forall v1, v2 :: Resolved(inp.reg, v1, v2)
    {
      redirect, train, control := false, false, false;
    }

    /** Predicted-taken instructions have deterministic targets, so comparing directions is enough. */
    method Settle(id: IdEx, ghost rs1: Word, ghost rs2: Word, taken: bool, target: Word)
      requires id == inp.reg && id.valid
      requires taken == ActuallyTaken(id.op, rs1, rs2) && target == Target(id.op, id.pc, id.imm, rs1)
      modifies this`redirect, this`redirectTarget, this`control, this`train, this`trainPc, this`trainCond,
               this`trainTaken, this`trainTarget
      ensures Resolved(id, rs1, rs2)
    {
      hide ActuallyTaken, Target, IsCondBranch, Add;
      redirect := taken != id.predictedTaken;
      redirectTarget := if taken then target else Add(id.pc, 4);
      control := IsCondBranch(id.op) || id.op.JAL? || id.op.JALR?;
      train := bp.Some? && (IsCondBranch(id.op) || id.op.JAL?);
      trainPc, trainCond, trainTaken, trainTarget := id.pc, IsCondBranch(id.op), taken, target;
    }

    /** The ALU and the branch unit. */
    method Operate(id: IdEx, rs1: Word, rs2: Word) returns (aluOut: Word, taken: bool, target: Word)
      ensures aluOut == AluResult(id.op, id.pc, id.imm, rs1, rs2)
      ensures taken == ActuallyTaken(id.op, rs1, rs2) && target == Target(id.op, id.pc, id.imm, rs1)
    {
      hide AluExec, AluOpFor, BranchTaken, UsesImm, Add, ToWord;
      var a := if id.op.AUIPC? then id.pc else rs1;
      var b := if UsesImm(id.op) then ToWord(id.imm) else rs2;
      aluOut := AluExec(AluOpFor(id.op), a, b);
      taken, target := BranchTaken(id.op, rs1, rs2), Add(id.pc, ToWord(id.imm));

      // JAL and JALR write pc + 4 as the return address and always jump.
      if id.op.JAL? || id.op.JALR? {
        aluOut, taken := Add(id.pc, 4), true;
        if id.op.JALR? {
          target := Add(rs1, ToWord(id.imm));
          target := target - target % 2;
        }
      }
    }

    method Commit()
      requires BpValid(bp) && this as object != out
      modifies this`redirect, this`train, this`control, out`reg, fetch`redirect, fetch`redirectTarget, decode`flush,
               stats`branchCorrect, stats`branchMispredicts, BpObjects(bp)
      ensures !redirect && !train && !control && out.reg == out.shadow
      ensures fetch.redirect == (old(fetch.redirect) || old(redirect))
      ensures fetch.redirectTarget == (if old(redirect) then redirectTarget else old(fetch.redirectTarget))
      ensures decode.flush == (old(decode.flush) || old(redirect))
      ensures stats.branchMispredicts == old(stats.branchMispredicts) + (if old(control) && old(redirect) then 1 else 0)
      ensures stats.branchCorrect == old(stats.branchCorrect) + (if old(control) && !old(redirect) then 1 else 0)
      ensures BpModel(bp) == Taught(old(BpModel(bp)), old(train), trainPc, trainCond, trainTaken, trainTarget)
    {
      hide BpModel, Taught, BranchPredictor.Valid;
      Signal();
      Train();
      out.Commit();
      redirect, train, control := false, false, false;
    }

    /** Tell fetch and decode of a redirect, and probe the outcome. */
    method Signal()
      modifies fetch`redirect, fetch`redirectTarget, decode`flush, stats`branchCorrect, stats`branchMispredicts
      ensures fetch.redirect == (old(fetch.redirect) || redirect)
      ensures fetch.redirectTarget == (if redirect then redirectTarget else old(fetch.redirectTarget))
      ensures decode.flush == (old(decode.flush) || redirect)
      ensures stats.branchMispredicts == old(stats.branchMispredicts) + (if control && redirect then 1 else 0)
      ensures stats.branchCorrect == old(stats.branchCorrect) + (if control && !redirect then 1 else 0)
    {
      if redirect {
        fetch.SetRedirect(redirectTarget);
        decode.SetFlush();
      }
      if control {
        if redirect { stats.branchMispredicts := stats.branchMispredicts + 1; }
          else { stats.branchCorrect := stats.branchCorrect + 1; }
      }
    }

    method Train()
      requires BpValid(bp)
      modifies BpObjects(bp)
      ensures BpModel(bp) == Taught(old(BpModel(bp)), train, trainPc, trainCond, trainTaken, trainTarget)
    {
      hide BranchPredictor.Model, P.Update, TablesShape;
      if train && bp.Some? { bp.value.Update(trainPc, trainCond, trainTaken, trainTarget); }
    }
  }

  // ---- MemAccessStage ----

  class MemAccessStage {
    const dmem: Port
    const inp: Latch<ExMem>
    const out: Latch<MemWb>
    var stalling: bool

    ghost predicate Valid()
      reads dmem.Repr
    {
      dmem.Valid() && out.bubble == MEM_BUBBLE && this !in dmem.Repr && inp !in dmem.Repr && out !in dmem.Repr
    }

    constructor (dmem: Port, inp: Latch<ExMem>, out: Latch<MemWb>)
      requires dmem.Valid() && out.bubble == MEM_BUBBLE && inp !in dmem.Repr && out !in dmem.Repr
      ensures Valid() && this.dmem == dmem && this.inp == inp && this.out == out && !stalling
    {
      this.dmem, this.inp, this.out, stalling := dmem, inp, out, false;
    }

    /** Ask the memory whether the access is served; the access runs once, on the served cycle. */
    method Ask() returns (ready: bool)
      requires Valid() && inp.reg.valid && IsMemOp(inp.reg.op)
      modifies dmem.Repr
      ensures Valid() && dmem.Data() == old(dmem.Data()) && ready == H.IsServed(dmem.Model())
      ensures dmem.Model() == H.Ready(old(dmem.Model()), inp.reg.aluOut, IsStore(inp.reg.op))
    {
      hide Port.Valid, Port.Model, Port.Data, H.Shape, H.Ready, H.IsServed;
      ready := dmem.Ready(inp.reg.aluOut, IsStore(inp.reg.op));
    }

    method Load(op: Op, addr: Word) returns (v: Word)
      requires Valid() && IsLoad(op)
      ensures v == LoadedValue(op, dmem.Data(), addr)
    {
      hide Port.Valid, Port.Data, Port.LoadByte, Port.LoadHalf, Port.LoadWord, B.LoadByte, B.LoadHalf, B.LoadWord;
      match op
      case LW => v := dmem.LoadWord(addr);
      case LH => var h: int := dmem.LoadHalf(addr); v := Unsigned(if h < 0x8000 then h else h - 0x1_0000);
      case LHU => v := dmem.LoadHalf(addr);
      case LB => var b: int := dmem.LoadByte(addr); v := Unsigned(if b < 0x80 then b else b - 0x100);
      case LBU => v := dmem.LoadByte(addr);
    }

    /** A store; val is what the commit record shows. */
    method Store(op: Op, addr: Word, rs2Val: Word) returns (val: Word)
      requires Valid() && IsStore(op)
      modifies dmem.Repr
      ensures Valid() && dmem.Model() == old(dmem.Model())
      ensures val == (if op.SW? then rs2Val else if op.SH? then rs2Val % 0x1_0000 else rs2Val % 0x100)
      ensures dmem.Data() == if op.SW? then B.StoreWord(old(dmem.Data()), addr, val)
                             else if op.SH? then B.StoreHalf(old(dmem.Data()), addr, val)
                             else B.StoreByte(old(dmem.Data()), addr, val)
    {
      hide Port.Valid, Port.Data, Port.Model, H.Shape, B.StoreByte, B.StoreHalf, B.StoreWord;
      match op
      case SW => val := rs2Val; dmem.StoreWord(addr, val);
      case SH => val := rs2Val % 0x1_0000; dmem.StoreHalf(addr, val);
      case SB => val := rs2Val % 0x100; dmem.StoreByte(addr, val);
    }

    /** The served cycle of a memory operation, or the one cycle of any other instruction. */
    method Access()
      requires Valid() && inp.reg.valid
      modifies out`shadow, dmem.Repr
      ensures Valid() && dmem.Model() == old(dmem.Model())
      ensures out.shadow == MemOut(inp.reg, old(dmem.Data()), true)
      ensures dmem.Data() == MemStore(inp.reg, old(dmem.Data()), true)
    {
      hide Port.Valid, Port.Data, Port.Model, H.Shape, LoadedValue, B.StoreByte, B.StoreHalf, B.StoreWord;
      var ex := inp.reg;
      AccessCases(ex, dmem.Data());
      if IsLoad(ex.op) {
        var v := Load(ex.op, ex.aluOut);
        out.Write(MemWb(ex.pc, ex.raw, ex.op, ex.rd, v, ex.aluOut, 0, false, true));
      } else if IsStore(ex.op) {
        var v := Store(ex.op, ex.aluOut, ex.rs2Val);
        out.Write(MemWb(ex.pc, ex.raw, ex.op, ex.rd, 0, ex.aluOut, v, true, true));
      } else {
        out.Write(MemWb(ex.pc, ex.raw, ex.op, ex.rd, ex.aluOut, 0, 0, false, true));
      }
    }

    lemma AccessCases(ex: ExMem, mem: B.Bytes)
      requires ex.valid
      ensures IsLoad(ex.op) ==> MemStore(ex, mem, true) == mem
      ensures IsLoad(ex.op) ==>
        MemOut(ex, mem, true)
            == MemWb(ex.pc, ex.raw, ex.op, ex.rd, LoadedValue(ex.op, mem, ex.aluOut), ex.aluOut, 0, false, true)
      ensures IsStore(ex.op) ==>
        var v := if ex.op.SW? then ex.rs2Val else if ex.op.SH? then ex.rs2Val % 0x1_0000 else ex.rs2Val % 0x100;
        && MemOut(ex, mem, true) == MemWb(ex.pc, ex.raw, ex.op, ex.rd, 0, ex.aluOut, v, true, true)
        && MemStore(ex, mem, true) == (if ex.op.SW? then B.StoreWord(mem, ex.aluOut, v)
           else if ex.op.SH? then B.StoreHalf(mem, ex.aluOut, v)
                                       else B.StoreByte(mem, ex.aluOut, v))
      ensures !IsLoad(ex.op) && !IsStore(ex.op) ==> MemStore(ex, mem, true) == mem
      ensures !IsLoad(ex.op) && !IsStore(ex.op) ==>
        MemOut(ex, mem, true) == MemWb(ex.pc, ex.raw, ex.op, ex.rd, ex.aluOut, 0, 0, false, true)
    {
      hide LoadedValue, B.StoreByte, B.StoreHalf, B.StoreWord;
    }

    method Evaluate()
      requires Valid()
      modifies this`stalling, out`shadow, dmem.Repr
      ensures Valid()
      ensures var x := inp.reg; var asks := x.valid && IsMemOp(x.op); var mem := old(dmem.Data());
        && dmem.Model() == (if asks then H.Ready(old(dmem.Model()), x.aluOut, IsStore(x.op)) else old(dmem.Model()))
        && var ready := asks && H.IsServed(dmem.Model());
           stalling == MemStalls(x, ready) && out.shadow == MemOut(x, mem, ready)
               && dmem.Data() == MemStore(x, mem, ready)
    {
      hide Port.Valid, Port.Data, Port.Model, H.Shape, H.Ready, H.IsServed, IsMemOp, IsStore, MemOut, MemStore;
      var ex := inp.reg;
      stalling := false;
      ServedOrNot(ex, dmem.Data());
      if !ex.valid {
        out.Write(MEM_BUBBLE);
        return;
      }
      if IsMemOp(ex.op) {
        var ready := Ask();
        if !ready {
          stalling := true;
          out.Write(MEM_BUBBLE);
          return;
        }
      }
      Access();
    }

    lemma ServedOrNot(ex: ExMem, mem: B.Bytes)
      ensures !ex.valid ==> forall r :: MemOut(ex, mem, r) == MEM_BUBBLE && MemStore(ex, mem, r) == mem
      ensures MemStalls(ex, false) ==> MemOut(ex, mem, false) == MEM_BUBBLE && MemStore(ex, mem, false) == mem
      ensures ex.valid && !IsMemOp(ex.op) ==>
                MemOut(ex, mem, false) == MemOut(ex, mem, true)
                && MemStore(ex, mem, false) == MemStore(ex, mem, true)
    {
      hide LoadedValue, B.StoreByte, B.StoreHalf, B.StoreWord;
    }

    method Commit()
      requires Valid()
      modifies out`reg, dmem.Repr
      ensures Valid() && dmem.Data() == old(dmem.Data()) && dmem.Model() == H.Tick(old(dmem.Model()))
      ensures out.reg == out.shadow == old(out.shadow)
    {
      hide Port.Valid, Port.Model, Port.Data, H.Shape, H.Tick;
      dmem.Tick();
      out.Commit();
    }
  }

  // ---- WritebackStage ----

  class WritebackStage {
    const rf: RegFile
    const inp: Latch<MemWb>
    var pending: bool
    var rd: Reg
    var val: Word

    constructor (rf: RegFile, inp: Latch<MemWb>)
      ensures this.rf == rf && this.inp == inp && !pending
    {
      this.rf, this.inp, pending, rd, val := rf, inp, false, 0, 0;
    }

    method Evaluate()
      modifies this`pending, this`rd, this`val
      ensures pending == (inp.reg.valid && HasWriteback(inp.reg.op))
      ensures rd == (if pending then inp.reg.rd else 0) && val == (if pending then inp.reg.wbVal else 0)
    {
      var wb := inp.reg;
      if !wb.valid || !HasWriteback(wb.op) {
        pending, rd, val := false, 0, 0;
        return;
      }
      pending, rd, val := true, wb.rd, wb.wbVal;
    }

    method Commit()
      requires rf.Valid()
      modifies this`pending, rf.regs
      ensures rf.Valid() && !pending
      ensures rf.Model() == if old(pending) then SetReg(old(rf.Model()), rd, val) else old(rf.Model())
    {
      if pending { rf.Write(rd, val); }
      pending := false;
    }
  }

  // ---- HazardUnit ----

  class HazardUnit {
    const ifId: Latch<IfId>
    const idEx: Latch<IdEx>
    const fetch: FetchStage
    const decode: DecodeStage
    var stall: bool

    constructor (ifId: Latch<IfId>, idEx: Latch<IdEx>, fetch: FetchStage, decode: DecodeStage)
      ensures this.ifId == ifId && this.idEx == idEx && this.fetch == fetch && this.decode == decode && !stall
    {
      this.ifId, this.idEx, this.fetch, this.decode, stall := ifId, idEx, fetch, decode, false;
    }

    method Evaluate()
      modifies this`stall
      ensures stall == LoadUse(idEx.reg, ifId.reg)
    {
      hide Rs1Field, Rs2Field;
      stall := false;
      var ex, fe := idEx.reg, ifId.reg;
      if !ex.valid { return; }
      if !IsLoad(ex.op) || ex.rd == 0 { return; }
      var feRs1, feRs2 := Rs1Field(fe.raw), Rs2Field(fe.raw);
      if ex.rd == feRs1 || ex.rd == feRs2 { stall := true; }
    }

    method Commit()
      modifies this`stall, fetch`stall, decode`flush
      ensures !stall
      ensures fetch.stall == (old(fetch.stall) || old(stall)) && decode.flush == (old(decode.flush) || old(stall))
    {
      if stall {
        fetch.SetStall();
        decode.SetFlush();
      }
      stall := false;
    }
  }
}
