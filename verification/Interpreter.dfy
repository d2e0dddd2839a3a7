/** The reference: one RV32I instruction at a time, written from the RISC-V Unprivileged ISA
    (Volume I, sections 2.4 to 2.8).  FENCE and ECALL do nothing; EBREAK and an illegal encoding
    stop the interpreter where it stands. */
module Interpreter {
  import opened Words
  import opened Decoder
  import opened ByteMemory

  type Regs = r: seq<Word> | |r| == 32 && r[0] == 0 witness seq(32, _ => 0)

  datatype Arch = Arch(pc: Word, regs: Regs, mem: Bytes)

  datatype Access = NoAccess | LoadFrom(addr: Word) | StoreTo(addr: Word, value: Word)

  /** What one retired instruction did. */
  datatype Commit = Commit(pc: Word, raw: Raw, op: Op, write: Option<(Reg, Word)>, access: Access)

  function Fetch(prog: Bytes, pc: Word): Raw { ToRaw(LoadWord(prog, pc)) }

  function SetReg(r: Regs, rd: Reg, v: Word): Regs {
    if rd == 0 then r else r[rd := v]
  }

  // ---- Sections 2.4 and 2.6: values ----

  function SignExtend(v: nat, bits: nat): Word
    requires bits == 8 || bits == 16
    requires v < Pow2(bits)
  {
    assert Pow2(8) == 256 && Pow2(16) == 0x1_0000 by { Pow2Values(); }
    if v < Pow2(bits - 1) then v else v + (0x1_0000_0000 - Pow2(bits))
  }

  lemma Pow2Values()
    ensures Pow2(7) == 128 && Pow2(8) == 256 && Pow2(15) == 0x8000 && Pow2(16) == 0x1_0000
  {
    assert Pow2(4) == 16;
    assert Pow2(8) == 256;
    assert Pow2(12) == 0x1000;
  }

  function LoadResult(op: Op, m: Bytes, addr: Word): Word
    requires IsLoad(op)
  {
    Pow2Values();
    match op
    case LB => SignExtend(LoadByte(m, addr), 8)
    case LBU => LoadByte(m, addr)
    case LH => SignExtend(LoadHalf(m, addr), 16)
    case LHU => LoadHalf(m, addr)
    case LW => LoadWord(m, addr)
  }

  /** The integer computations of section 2.4, on the two operand values of the instruction. */
  function Compute(op: Op, x: Word, y: Word): Word {
    match op
    case ADD | ADDI => (x + y) % 0x1_0000_0000
    case SUB => (x - y) % 0x1_0000_0000
    case AND | ANDI => BitAnd(x, y)
    case OR | ORI => BitOr(x, y)
    case XOR | XORI => BitXor(x, y)
    case SLL | SLLI => x * Pow2(y % 32) % 0x1_0000_0000
    case SRL | SRLI => x / Pow2(y % 32) % 0x1_0000_0000
    case SRA | SRAI => (Signed(x) / Pow2(y % 32)) % 0x1_0000_0000
    case SLT | SLTI => if Signed(x) < Signed(y) then 1 else 0
    case SLTU | SLTIU => if x < y then 1 else 0
    case _ => 0
  }

  predicate IsRegisterForm(op: Op) {
    match op
    case ADD | SUB | SLL | SRL | SRA | SLT | SLTU | AND | OR | XOR => true
    case _ => false
  }

  predicate IsImmediateForm(op: Op) {
    match op
    case ADDI | SLLI | SRLI | SRAI | SLTI | SLTIU | ANDI | ORI | XORI => true
    case _ => false
  }

  predicate WritesRd(op: Op) {
    IsRegisterForm(op) || IsImmediateForm(op) || IsLoad(op) || op.LUI? || op.AUIPC? || op.JAL? || op.JALR?
  }

  /** Section 2.6: the effective address of a load or store. */
  function Effective(i: Instruction, v1: Word): Word { (v1 + ToWord(i.imm)) % 0x1_0000_0000 }

  /** The value an instruction that writes rd gives it; v1 and v2 are the values of rs1 and rs2. */
  function RdValue(i: Instruction, pc: Word, v1: Word, v2: Word, m: Bytes): Word {
    var imm := ToWord(i.imm);
    if IsRegisterForm(i.op) then Compute(i.op, v1, v2)
    else if IsImmediateForm(i.op) then Compute(i.op, v1, imm)
    else if IsLoad(i.op) then LoadResult(i.op, m, Effective(i, v1))
    else if i.op.LUI? then imm
    else if i.op.AUIPC? then (pc + imm) % 0x1_0000_0000
    else if i.op.JAL? || i.op.JALR? then (pc + 4) % 0x1_0000_0000
    else 0
  }

  // ---- Section 2.5: control transfer ----

  predicate Condition(op: Op, v1: Word, v2: Word) {
    || (op.BEQ? && v1 == v2)
    || (op.BNE? && v1 != v2)
    || (op.BLT? && Signed(v1) < Signed(v2))
    || (op.BGE? && !(Signed(v1) < Signed(v2)))
    || (op.BLTU? && v1 < v2)
    || (op.BGEU? && !(v1 < v2))
  }

  function NextPc(i: Instruction, pc: Word, v1: Word, v2: Word): Word {
    var imm := ToWord(i.imm);
    if i.op.JAL? || Condition(i.op, v1, v2) then (pc + imm) % 0x1_0000_0000
    else if i.op.JALR? then var t := (v1 + imm) % 0x1_0000_0000; t - t % 2
    else (pc + 4) % 0x1_0000_0000
  }

  // ---- Section 2.6: stores ----

  function StoredValue(op: Op, v2: Word): Word {
    match op
    case SB => v2 % 0x100
    case SH => v2 % 0x1_0000
    case _ => v2
  }

  function StoreResult(i: Instruction, v1: Word, v2: Word, m: Bytes): Bytes {
    var addr := Effective(i, v1);
    match i.op
    case SB => StoreByte(m, addr, StoredValue(i.op, v2))
    case SH => StoreHalf(m, addr, StoredValue(i.op, v2))
    case SW => StoreWord(m, addr, StoredValue(i.op, v2))
    case _ => m
  }

  function AccessFor(i: Instruction, v1: Word, v2: Word): Access {
    if IsLoad(i.op) then LoadFrom(Effective(i, v1))
    else if IsStore(i.op) then StoreTo(Effective(i, v1), StoredValue(i.op, v2))
    else NoAccess
  }

  // ---- One instruction, and whole runs ----

  function InstructionAt(prog: Bytes, pc: Word): Instruction { Decode(Fetch(prog, pc)) }

  predicate Halted(prog: Bytes, a: Arch) { IsHalting(InstructionAt(prog, a.pc).op) }

  function Exec(prog: Bytes, a: Arch): Arch {
    var i := InstructionAt(prog, a.pc);
    var v1 := a.regs[i.rs1];
    var v2 := a.regs[i.rs2];
    if IsHalting(i.op) then a
    else
      Arch(NextPc(i, a.pc, v1, v2),
           if WritesRd(i.op) then SetReg(a.regs, i.rd, RdValue(i, a.pc, v1, v2, a.mem)) else a.regs,
           StoreResult(i, v1, v2, a.mem))
  }

  function CommitAt(prog: Bytes, a: Arch): Commit {
    var raw := Fetch(prog, a.pc);
    var i := Decode(raw);
    var v1 := a.regs[i.rs1];
    var v2 := a.regs[i.rs2];
    Commit(a.pc, raw, i.op,
           if WritesRd(i.op) && i.rd != 0 then Some((i.rd, RdValue(i, a.pc, v1, v2, a.mem))) else None,
           AccessFor(i, v1, v2))
  }

  /** The architectural state before instruction n of the run from a. */
  function State(prog: Bytes, a: Arch, n: nat): Arch {
    if n == 0 then a else Exec(prog, State(prog, a, n - 1))
  }

  /** The first n commits of the run from a. */
  function Trace(prog: Bytes, a: Arch, n: nat): seq<Commit> {
    if n == 0 then [] else Trace(prog, a, n - 1) + [CommitAt(prog, State(prog, a, n - 1))]
  }
}
