/** src/isa/rv32i/decoder.cpp over include/cpusim/isa/rv32i/encoding.h and defs.h. */
module Encoding {
  import opened Words

  function Opcode(w: Raw): Raw { w & 0x7f }

  /** A five-bit register field as an index. */
  function RegOf(f: Raw): Reg
    requires f < 32
  {
    f as bv5 as nat
  }

  function RdField(w: Raw): Reg { RegOf((w >> 7) & 0x1f) }
  function Funct3(w: Raw): Raw { (w >> 12) & 0x7 }
  function Rs1Field(w: Raw): Reg { RegOf((w >> 15) & 0x1f) }
  function Rs2Field(w: Raw): Reg { RegOf((w >> 20) & 0x1f) }
  function Funct7(w: Raw): Raw { (w >> 25) & 0x7f }
  function Funct12(w: Raw): Raw { w >> 20 }

  /** Sign extension of a 12-, 13- or 21-bit field; `sign` is the field's top bit. */
  function Sext(val: Raw, sign: Raw): Raw { (val ^ sign) - sign }

  function ImmI(w: Raw): Raw { Sext(w >> 20, 0x800) }

  /** The scattered immediate bits of a store, of a branch and of a JAL, before sign extension. */
  function FieldS(w: Raw): Raw { ((w >> 25) << 5) | ((w >> 7) & 0x1f) }

  function FieldB(w: Raw): Raw {
    ((w >> 31) << 12) | (((w >> 7) & 0x1) << 11) | (((w >> 25) & 0x3f) << 5) | (((w >> 8) & 0xf) << 1)
  }

  function FieldJ(w: Raw): Raw {
    ((w >> 31) << 20) | (((w >> 12) & 0xff) << 12) | (((w >> 20) & 0x1) << 11) | (((w >> 21) & 0x3ff) << 1)
  }

  function ImmS(w: Raw): Raw { Sext(FieldS(w), 0x800) }

  function ImmB(w: Raw): Raw { Sext(FieldB(w), 0x1000) }

  function ImmU(w: Raw): Raw { w & 0xffff_f000 }

  function ImmJ(w: Raw): Raw { Sext(FieldJ(w), 0x10_0000) }
}

module Decoder {
  import opened Words
  import opened Encoding

  datatype Op =
    | ADD | SUB | SLL | SRL | SRA | SLT | SLTU | AND | OR | XOR
    | ADDI | SLLI | SRLI | SRAI | SLTI | SLTIU | ANDI | ORI | XORI
    | LB | LH | LW | LBU | LHU
    | SB | SH | SW
    | BEQ | BNE | BLT | BGE | BLTU | BGEU
    | JAL | JALR
    | LUI | AUIPC
    | ECALL | EBREAK | FENCE
    | ILLEGAL

  /** A decoded instruction; `imm` is the bit pattern of the source's int32_t field. */
  datatype Instruction = Instruction(op: Op, rd: Reg, rs1: Reg, rs2: Reg, imm: Raw)

  const OPC_LUI: Raw      := 0x37
  const OPC_AUIPC: Raw    := 0x17
  const OPC_JAL: Raw      := 0x6f
  const OPC_JALR: Raw     := 0x67
  const OPC_BRANCH: Raw   := 0x63
  const OPC_LOAD: Raw     := 0x03
  const OPC_STORE: Raw    := 0x23
  const OPC_OP_IMM: Raw   := 0x13
  const OPC_OP: Raw       := 0x33
  const OPC_MISC_MEM: Raw := 0x0f
  const OPC_SYSTEM: Raw   := 0x73

  const F7_BASE: Raw := 0x00
  const F7_ALT: Raw  := 0x20

  predicate IsLoad(op: Op) {
    match op
    case LB | LH | LW | LBU | LHU => true
    case _ => false
  }
  predicate IsStore(op: Op) {
    match op
    case SB | SH | SW => true
    case _ => false
  }
  predicate IsMemOp(op: Op) { IsLoad(op) || IsStore(op) }
  predicate IsCondBranch(op: Op) {
    match op
    case BEQ | BNE | BLT | BGE | BLTU | BGEU => true
    case _ => false
  }
  predicate IsHalting(op: Op) { op.EBREAK? || op.ILLEGAL? }

  /** WritebackStage::has_writeback (src/uarch/pipeline/writeback.cpp:11-23). */
  predicate HasWriteback(op: Op) {
    match op
    case SB | SH | SW | BEQ | BNE | BLT | BGE | BLTU | BGEU | ECALL | EBREAK | FENCE | ILLEGAL => false
    case _ => true
  }

  function BranchOp(f3: Raw): (op: Op)
    ensures IsCondBranch(op) || op.ILLEGAL?
  {
    if f3 == 0 then BEQ else if f3 == 1 then BNE else if f3 == 4 then BLT
    else if f3 == 5 then BGE else if f3 == 6 then BLTU else if f3 == 7 then BGEU else ILLEGAL
  }

  function LoadOp(f3: Raw): (op: Op)
    ensures IsLoad(op) || op.ILLEGAL?
  {
    if f3 == 0 then LB else if f3 == 1 then LH else if f3 == 2 then LW
    else if f3 == 4 then LBU else if f3 == 5 then LHU else ILLEGAL
  }

  function StoreOp(f3: Raw): (op: Op)
    ensures IsStore(op) || op.ILLEGAL?
  {
    if f3 == 0 then SB else if f3 == 1 then SH else if f3 == 2 then SW else ILLEGAL
  }

  function ImmediateOp(f3: Raw, f7: Raw): (op: Op)
    ensures (HasWriteback(op) && !IsLoad(op)) || op.ILLEGAL?
  {
    if f3 == 0 then ADDI else if f3 == 2 then SLTI else if f3 == 3 then SLTIU
    else if f3 == 4 then XORI else if f3 == 6 then ORI else if f3 == 7 then ANDI
    else if f3 == 1 then (if f7 == F7_BASE then SLLI else ILLEGAL)
    else if f7 == F7_BASE then SRLI else if f7 == F7_ALT then SRAI else ILLEGAL
  }

  function RegisterOp(f3: Raw, f7: Raw): (op: Op)
    ensures (HasWriteback(op) && !IsLoad(op)) || op.ILLEGAL?
  {
    if f7 == F7_ALT then (if f3 == 0 then SUB else if f3 == 5 then SRA else ILLEGAL)
    else if f7 != F7_BASE then ILLEGAL
    else if f3 == 0 then ADD else if f3 == 1 then SLL else if f3 == 2 then SLT else if f3 == 3 then SLTU
    else if f3 == 4 then XOR else if f3 == 5 then SRL else if f3 == 6 then OR else AND
  }

  predicate IsShiftImmediate(op: Op) { op.SLLI? || op.SRLI? || op.SRAI? }

  function Decode(w: Raw): Instruction {
    var opc := Opcode(w);
    var f3 := Funct3(w);
    var f7 := Funct7(w);
    var rd := RdField(w);
    var rs1 := Rs1Field(w);
    var rs2 := Rs2Field(w);
    if opc == OPC_LUI then Instruction(LUI, rd, 0, 0, ImmU(w))
    else if opc == OPC_AUIPC then Instruction(AUIPC, rd, 0, 0, ImmU(w))
    else if opc == OPC_JAL then Instruction(JAL, rd, 0, 0, ImmJ(w))
    else if opc == OPC_JALR then
      if f3 != 0 then Instruction(ILLEGAL, rd, rs1, rs2, 0) else Instruction(JALR, rd, rs1, 0, ImmI(w))
    else if opc == OPC_BRANCH then Instruction(BranchOp(f3), 0, rs1, rs2, ImmB(w))
    else if opc == OPC_LOAD then Instruction(LoadOp(f3), rd, rs1, 0, ImmI(w))
    else if opc == OPC_STORE then Instruction(StoreOp(f3), 0, rs1, rs2, ImmS(w))
    else if opc == OPC_OP_IMM then
      var op := ImmediateOp(f3, f7);
      Instruction(op, rd, rs1, 0, if IsShiftImmediate(op) then ImmI(w) & 0x1f else ImmI(w))
    else if opc == OPC_OP then Instruction(RegisterOp(f3, f7), rd, rs1, rs2, 0)
    else if opc == OPC_MISC_MEM then
      if f3 != 0 then Instruction(ILLEGAL, rd, rs1, rs2, 0) else Instruction(FENCE, 0, 0, 0, 0)
    else if opc == OPC_SYSTEM then
      if f3 != 0 then Instruction(ILLEGAL, rd, rs1, rs2, 0)
      else Instruction(if Funct12(w) == 0 then ECALL else if Funct12(w) == 1 then EBREAK else ILLEGAL, 0, 0, 0, 0)
    else Instruction(ILLEGAL, rd, rs1, rs2, 0)
  }

  /** The interlock's raw register fields cover every register an instruction reads. */
  lemma DecodeSources(w: Raw)
    ensures Decode(w).rs1 == 0 || Decode(w).rs1 == Rs1Field(w)
    ensures Decode(w).rs2 == 0 || Decode(w).rs2 == Rs2Field(w)
  {
    hide BranchOp, LoadOp, StoreOp, ImmediateOp, RegisterOp, ImmI, ImmS, ImmB, ImmU, ImmJ, Rs1Field, Rs2Field,
         RdField;
    hide Funct3, Funct7, Funct12, Opcode, IsShiftImmediate;
  }

  /** An instruction that writes no register carries rd == 0, unless it is ILLEGAL. */
  lemma DecodeDestination(w: Raw)
    requires !HasWriteback(Decode(w).op) && !Decode(w).op.ILLEGAL?
    ensures Decode(w).rd == 0
  {
    hide BranchOp, LoadOp, StoreOp, ImmediateOp, RegisterOp, ImmI, ImmS, ImmB, ImmU, ImmJ, Rs1Field, Rs2Field,
         RdField;
    hide Funct3, Funct7, Funct12, Opcode, IsShiftImmediate;
  }
}
