/** One clock cycle of the five-stage pipeline on values (src/sim/core.cpp:61-139 and the stages it
    calls).  What the two memory ports and the predictor answer in the cycle is an input here; the
    Machine module computes those answers. */
module Pipeline {
  import opened Words
  import opened Encoding
  import opened Decoder
  import opened Alu
  import opened ByteMemory
  import opened Interpreter

  // ---- Latch contents (include/cpusim/uarch/pipeline/pipe_regs.h); Bubble values are the defaults ----

  datatype IfId = IfId(pc: Word, raw: Raw, valid: bool, predictedTaken: bool)

  datatype IdEx = IdEx(pc: Word, raw: Raw, op: Op, rd: Reg, rs1: Reg, rs2: Reg, imm: Raw,
                       rs1Val: Word, rs2Val: Word, valid: bool, predictedTaken: bool)

  datatype ExMem = ExMem(pc: Word, raw: Raw, op: Op, rd: Reg, aluOut: Word, rs2Val: Word,
                         branchTaken: bool, branchTarget: Word, valid: bool)

  datatype MemWb = MemWb(pc: Word, raw: Raw, op: Op, rd: Reg, wbVal: Word, memAddr: Word, memVal: Word,
                         isStore: bool, valid: bool)

  const IF_BUBBLE := IfId(0, 0, false, false)
  const ID_BUBBLE := IdEx(0, 0, ILLEGAL, 0, 0, 0, 0, 0, 0, false, false)
  const EX_BUBBLE := ExMem(0, 0, ILLEGAL, 0, 0, 0, false, 0, false)
  const MEM_BUBBLE := MemWb(0, 0, ILLEGAL, 0, 0, 0, 0, false, false)

  datatype Prediction = Prediction(taken: bool, target: Word)

  datatype Halt = Running | Stopped(pc: Word, raw: Raw, op: Op)

  datatype Pipe = Pipe(pc: Word, ifId: IfId, idEx: IdEx, exMem: ExMem, memWb: MemWb, prev: MemWb,
                       regs: Regs, mem: Bytes, halt: Halt,
                       cycles: nat, instructions: nat, correct: nat, mispredicts: nat)

  /** The answers of the ports and of the predictor in one cycle. */
  datatype Inputs = Inputs(fetchReady: bool, dataReady: bool, prediction: Prediction)

  // ---- FetchStage ----

  function FetchOut(prog: Bytes, pc: Word, i: Inputs): IfId {
    if !i.fetchReady then IF_BUBBLE else IfId(pc, Fetch(prog, pc), true, i.prediction.taken)
  }

  function FetchNextPc(pc: Word, i: Inputs): Word {
    if !i.fetchReady then pc else if i.prediction.taken then i.prediction.target else Add(pc, 4)
  }

  // ---- DecodeStage ----

  function DecodeOut(f: IfId, regs: Regs): IdEx {
    if !f.valid then ID_BUBBLE
    else
      var i := Decode(f.raw);
      IdEx(f.pc, f.raw, i.op, i.rd, i.rs1, i.rs2, i.imm, regs[i.rs1], regs[i.rs2], true, f.predictedTaken)
  }

  // ---- ForwardUnit::resolve ----

  function Resolve(reg: Reg, cur: Word, ex: ExMem, wb: MemWb, prev: MemWb): Word {
    if reg == 0 then 0
    else if ex.valid && ex.rd == reg then ex.aluOut
    else if wb.valid && wb.rd == reg then wb.wbVal
    else if prev.valid && prev.rd == reg then prev.wbVal
    else cur
  }

  // ---- ExecuteStage ----

  predicate UsesImm(op: Op) {
    match op
    case ADD | SUB | AND | OR | XOR | SLL | SRL | SRA | SLT | SLTU => false
    case _ => true
  }

  function AluResult(op: Op, pc: Word, imm: Raw, v1: Word, v2: Word): Word {
    if op.JAL? || op.JALR? then Add(pc, 4)
    else AluExec(AluOpFor(op), if op.AUIPC? then pc else v1, if UsesImm(op) then ToWord(imm) else v2)
  }

  predicate ActuallyTaken(op: Op, v1: Word, v2: Word) {
    op.JAL? || op.JALR? || BranchTaken(op, v1, v2)
  }

  function Target(op: Op, pc: Word, imm: Raw, v1: Word): Word {
    if op.JALR? then var t := Add(v1, ToWord(imm)); t - t % 2
    else Add(pc, ToWord(imm))
  }

  function ExecuteOut(x: IdEx, v1: Word, v2: Word): ExMem {
    if !x.valid then EX_BUBBLE
    else
      ExMem(x.pc, x.raw, x.op, x.rd, AluResult(x.op, x.pc, x.imm, v1, v2), v2,
            ActuallyTaken(x.op, v1, v2), Target(x.op, x.pc, x.imm, v1), true)
  }

  /** Whether EX redirects fetch, and where to. */
  predicate Redirects(x: IdEx, v1: Word, v2: Word) {
    x.valid && ActuallyTaken(x.op, v1, v2) != x.predictedTaken
  }

  function RedirectTarget(x: IdEx, v1: Word, v2: Word): Word {
    if ActuallyTaken(x.op, v1, v2) then Target(x.op, x.pc, x.imm, v1) else Add(x.pc, 4)
  }

  predicate IsControl(x: IdEx) { x.valid && (IsCondBranch(x.op) || x.op.JAL? || x.op.JALR?) }

  predicate Trains(x: IdEx) { x.valid && (IsCondBranch(x.op) || x.op.JAL?) }

  // ---- HazardUnit ----

  /** A load in EX whose destination is in either raw register field of the word in ID. */
  predicate LoadUse(x: IdEx, f: IfId) {
    x.valid && IsLoad(x.op) && x.rd != 0 && (x.rd == Rs1Field(f.raw) || x.rd == Rs2Field(f.raw))
  }

  // ---- MemAccessStage ----

  predicate MemStalls(m: ExMem, dataReady: bool) { m.valid && IsMemOp(m.op) && !dataReady }

  function LoadedValue(op: Op, mem: Bytes, addr: Word): Word
    requires IsLoad(op)
  {
    match op
    case LW => LoadWord(mem, addr)
    case LH => var h := LoadHalf(mem, addr); Unsigned(if h < 0x8000 then h else h - 0x1_0000)
    case LHU => LoadHalf(mem, addr)
    case LB => var b := LoadByte(mem, addr); Unsigned(if b < 0x80 then b else b - 0x100)
    case LBU => LoadByte(mem, addr)
  }

  function MemOut(m: ExMem, mem: Bytes, dataReady: bool): MemWb {
    if !m.valid || MemStalls(m, dataReady) then MEM_BUBBLE
    else if IsLoad(m.op) then
      MemWb(m.pc, m.raw, m.op, m.rd, LoadedValue(m.op, mem, m.aluOut), m.aluOut, 0, false, true)
    else
      match m.op
      case SW => MemWb(m.pc, m.raw, m.op, m.rd, 0, m.aluOut, m.rs2Val, true, true)
      case SH => MemWb(m.pc, m.raw, m.op, m.rd, 0, m.aluOut, m.rs2Val % 0x1_0000, true, true)
      case SB => MemWb(m.pc, m.raw, m.op, m.rd, 0, m.aluOut, m.rs2Val % 0x100, true, true)
      case _ => MemWb(m.pc, m.raw, m.op, m.rd, m.aluOut, 0, 0, false, true)
  }

  function MemStore(m: ExMem, mem: Bytes, dataReady: bool): Bytes {
    if !m.valid || MemStalls(m, dataReady) then mem
    else
      match m.op
      case SW => StoreWord(mem, m.aluOut, m.rs2Val)
      case SH => StoreHalf(mem, m.aluOut, m.rs2Val % 0x1_0000)
      case SB => StoreByte(mem, m.aluOut, m.rs2Val % 0x100)
      case _ => mem
  }

  // ---- WritebackStage ----

  function RegsAfterWb(regs: Regs, w: MemWb): Regs {
    if w.valid && HasWriteback(w.op) then SetReg(regs, w.rd, w.wbVal) else regs
  }

  // ---- Core::tick ----

  function Operand1(s: Pipe): Word { Resolve(s.idEx.rs1, s.idEx.rs1Val, s.exMem, s.memWb, s.prev) }
  function Operand2(s: Pipe): Word { Resolve(s.idEx.rs2, s.idEx.rs2Val, s.exMem, s.memWb, s.prev) }

  /** Core::capture_ex_operands. */
  function Capture(s: Pipe): IdEx {
    if !s.idEx.valid then s.idEx else s.idEx.(rs1Val := Operand1(s), rs2Val := Operand2(s))
  }

  function HaltAfter(s: Pipe): Halt {
    if s.memWb.valid && IsHalting(s.memWb.op) then Stopped(s.memWb.pc, s.memWb.raw, s.memWb.op) else s.halt
  }

  predicate Redirecting(s: Pipe) { Redirects(s.idEx, Operand1(s), Operand2(s)) }

  /** The cycle of a MEM stall: WB drains, everything from EX up holds. */
  function StallStep(s: Pipe): Pipe {
    s.(idEx := Capture(s), memWb := MEM_BUBBLE, prev := s.memWb,
       regs := RegsAfterWb(s.regs, s.memWb), halt := HaltAfter(s),
       cycles := s.cycles + 1, instructions := s.instructions + (if s.memWb.valid then 1 else 0))
  }

  /** Every other cycle. */
  function FlowStep(prog: Bytes, s: Pipe, i: Inputs): Pipe {
    var v1 := Operand1(s);
    var v2 := Operand2(s);
    var redirect := Redirects(s.idEx, v1, v2);
    var hold := LoadUse(s.idEx, s.ifId);
    Pipe(if redirect then RedirectTarget(s.idEx, v1, v2) else if hold then s.pc else FetchNextPc(s.pc, i),
         if redirect then IF_BUBBLE else if hold then s.ifId else FetchOut(prog, s.pc, i),
         if redirect || hold then ID_BUBBLE else DecodeOut(s.ifId, s.regs),
         ExecuteOut(s.idEx, v1, v2),
         MemOut(s.exMem, s.mem, i.dataReady),
         s.memWb,
         RegsAfterWb(s.regs, s.memWb),
         MemStore(s.exMem, s.mem, i.dataReady),
         HaltAfter(s),
         s.cycles + 1,
         s.instructions + (if s.memWb.valid then 1 else 0),
         s.correct + (if IsControl(s.idEx) && !redirect then 1 else 0),
         s.mispredicts + (if IsControl(s.idEx) && redirect then 1 else 0))
  }

  function Step(prog: Bytes, s: Pipe, i: Inputs): Pipe {
    if s.halt.Stopped? then s
    else if MemStalls(s.exMem, i.dataReady) then StallStep(s)
    else FlowStep(prog, s, i)
  }

  function Initial(a: Arch): Pipe {
    Pipe(a.pc, IF_BUBBLE, ID_BUBBLE, EX_BUBBLE, MEM_BUBBLE, MEM_BUBBLE, a.regs, a.mem, Running, 0, 0, 0, 0)
  }

  /** The record of the entry at the WB input. */
  function CommitOf(w: MemWb): Commit {
    Commit(w.pc, w.raw, w.op,
           if HasWriteback(w.op) && w.rd != 0 then Some((w.rd, w.wbVal)) else None,
           if w.isStore then StoreTo(w.memAddr, w.memVal)
           else if IsLoad(w.op) then LoadFrom(w.memAddr)
           else NoAccess)
  }
}
