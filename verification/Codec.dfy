/** An encoder for each RV32I format (Unprivileged ISA, sections 2.2 and 2.3), and the round trips
    between it and the decoder. */
module Codec {
  import opened Words
  import opened Encoding
  import opened Decoder
  import opened Numbers

  function RegBits(r: Reg): Raw { (r as bv5) as bv32 }

  function EncodeR(opc: Raw, f3: Raw, f7: Raw, i: Instruction): Raw {
    opc | (RegBits(i.rd) << 7) | (f3 << 12) | (RegBits(i.rs1) << 15) | (RegBits(i.rs2) << 20) | (f7 << 25)
  }

  function EncodeI(opc: Raw, f3: Raw, i: Instruction): Raw {
    opc | (RegBits(i.rd) << 7) | (f3 << 12) | (RegBits(i.rs1) << 15) | (i.imm << 20)
  }

  /** A shift by a constant: funct7 above the five-bit shift amount. */
  function EncodeShift(f3: Raw, f7: Raw, i: Instruction): Raw {
    0x13 | (RegBits(i.rd) << 7) | (f3 << 12) | (RegBits(i.rs1) << 15) | (i.imm << 20) | (f7 << 25)
  }

  function EncodeS(f3: Raw, i: Instruction): Raw {
    0x23 | ((i.imm & 0x1f) << 7) | (f3 << 12) | (RegBits(i.rs1) << 15) | (RegBits(i.rs2) << 20)
    | (((i.imm >> 5) & 0x7f) << 25)
  }

  function EncodeB(f3: Raw, i: Instruction): Raw {
    0x63 | (((i.imm >> 11) & 1) << 7) | (((i.imm >> 1) & 0xf) << 8) | (f3 << 12) | (RegBits(i.rs1) << 15)
    | (RegBits(i.rs2) << 20) | (((i.imm >> 5) & 0x3f) << 25) | (((i.imm >> 12) & 1) << 31)
  }

  function EncodeU(opc: Raw, i: Instruction): Raw { opc | (RegBits(i.rd) << 7) | i.imm }

  function EncodeJ(i: Instruction): Raw {
    0x6f | (RegBits(i.rd) << 7) | (((i.imm >> 12) & 0xff) << 12) | (((i.imm >> 11) & 1) << 20)
    | (((i.imm >> 1) & 0x3ff) << 21) | (((i.imm >> 20) & 1) << 31)
  }

  function Encode(i: Instruction): Raw
    requires !i.op.ILLEGAL?
  {
    match i.op
    case ADD => EncodeR(0x33, 0, 0x00, i)
    case SUB => EncodeR(0x33, 0, 0x20, i)
    case SLL => EncodeR(0x33, 1, 0x00, i)
    case SLT => EncodeR(0x33, 2, 0x00, i)
    case SLTU => EncodeR(0x33, 3, 0x00, i)
    case XOR => EncodeR(0x33, 4, 0x00, i)
    case SRL => EncodeR(0x33, 5, 0x00, i)
    case SRA => EncodeR(0x33, 5, 0x20, i)
    case OR => EncodeR(0x33, 6, 0x00, i)
    case AND => EncodeR(0x33, 7, 0x00, i)
    case ADDI => EncodeI(0x13, 0, i)
    case SLTI => EncodeI(0x13, 2, i)
    case SLTIU => EncodeI(0x13, 3, i)
    case XORI => EncodeI(0x13, 4, i)
    case ORI => EncodeI(0x13, 6, i)
    case ANDI => EncodeI(0x13, 7, i)
    case SLLI => EncodeShift(1, 0x00, i)
    case SRLI => EncodeShift(5, 0x00, i)
    case SRAI => EncodeShift(5, 0x20, i)
    case LB => EncodeI(0x03, 0, i)
    case LH => EncodeI(0x03, 1, i)
    case LW => EncodeI(0x03, 2, i)
    case LBU => EncodeI(0x03, 4, i)
    case LHU => EncodeI(0x03, 5, i)
    case SB => EncodeS(0, i)
    case SH => EncodeS(1, i)
    case SW => EncodeS(2, i)
    case BEQ => EncodeB(0, i)
    case BNE => EncodeB(1, i)
    case BLT => EncodeB(4, i)
    case BGE => EncodeB(5, i)
    case BLTU => EncodeB(6, i)
    case BGEU => EncodeB(7, i)
    case JAL => EncodeJ(i)
    case JALR => EncodeI(0x67, 0, i)
    case LUI => EncodeU(0x37, i)
    case AUIPC => EncodeU(0x17, i)
    case ECALL => 0x0000_0073
    case EBREAK => 0x0010_0073
    case FENCE => 0x0000_000f
  }

  /** The immediates of each format, as numbers: 12 bits, 13 bits and 21 bits, signed; the last two even. */
  predicate FitsI(imm: Raw) { -0x800 <= Signed(ToWord(imm)) < 0x800 }
  predicate FitsB(imm: Raw) { imm & 1 == 0 && -0x1000 <= Signed(ToWord(imm)) < 0x1000 }
  predicate FitsJ(imm: Raw) { imm & 1 == 0 && -0x10_0000 <= Signed(ToWord(imm)) < 0x10_0000 }

  /** The instructions RV32I can express: immediates in the range of their format, unused fields 0. */
  predicate InRange(i: Instruction) {
    match i.op
    case ADD | SUB | SLL | SLT | SLTU | XOR | SRL | SRA | OR | AND => i.imm == 0
    case ADDI | SLTI | SLTIU | XORI | ORI | ANDI | LB | LH | LW | LBU | LHU | JALR => i.rs2 == 0 && FitsI(i.imm)
    case SLLI | SRLI | SRAI => i.rs2 == 0 && i.imm < 32
    case SB | SH | SW => i.rd == 0 && FitsI(i.imm)
    case BEQ | BNE | BLT | BGE | BLTU | BGEU => i.rd == 0 && FitsB(i.imm)
    case JAL => i.rs1 == 0 && i.rs2 == 0 && FitsJ(i.imm)
    case LUI | AUIPC => i.rs1 == 0 && i.rs2 == 0 && i.imm & 0xfff == 0
    case ECALL | EBREAK | FENCE => i.rd == 0 && i.rs1 == 0 && i.rs2 == 0 && i.imm == 0
    case ILLEGAL => false
  }

  // ---- Bit identities, one pair for each layout of fields ----

  predicate BitsIFit(imm: Raw) { Extended12(imm) }
  predicate BitsBFit(imm: Raw) { imm & 1 == 0 && Extended13(imm) }
  predicate BitsJFit(imm: Raw) { imm & 1 == 0 && Extended21(imm) }

  lemma FitsInBits(imm: Raw)
    ensures FitsI(imm) == BitsIFit(imm) && FitsB(imm) == BitsBFit(imm) && FitsJ(imm) == BitsJFit(imm)
  {
    hide Extended12, Extended13, Extended21, Signed, ToWord;
    ExtendedIs(imm);
  }

  lemma RegOfBits(r: Reg)
    ensures RegBits(r) < 32 && RegOf(RegBits(r)) == r
  {
    assert (r as bv5) as nat == r;
  }

  lemma BitsOfReg(f: Raw)
    requires f < 32
    ensures RegBits(RegOf(f)) == f
  {
    assert ((f as bv5) as nat) as bv5 == f as bv5;
  }

  lemma BitsR(opc: Raw, d: Raw, f3: Raw, s: Raw, t: Raw, f7: Raw)
    requires opc < 128 && d < 32 && f3 < 8 && s < 32 && t < 32 && f7 < 128
    ensures var w := opc | (d << 7) | (f3 << 12) | (s << 15) | (t << 20) | (f7 << 25);
      && w & 0x7f == opc && (w >> 7) & 0x1f == d && (w >> 12) & 0x7 == f3 && (w >> 15) & 0x1f == s
      && (w >> 20) & 0x1f == t && (w >> 25) & 0x7f == f7
  {
  }

  lemma BitsI(opc: Raw, d: Raw, f3: Raw, s: Raw, imm: Raw)
    requires opc < 128 && d < 32 && f3 < 8 && s < 32 && BitsIFit(imm)
    ensures var w := opc | (d << 7) | (f3 << 12) | (s << 15) | (imm << 20);
      && w & 0x7f == opc && (w >> 7) & 0x1f == d && (w >> 12) & 0x7 == f3 && (w >> 15) & 0x1f == s && ImmI(w) == imm
  {
  }

  lemma BitsShift(opc: Raw, d: Raw, f3: Raw, s: Raw, imm: Raw, f7: Raw)
    requires opc < 128 && d < 32 && f3 < 8 && s < 32 && imm < 32 && f7 < 128
    ensures var w := opc | (d << 7) | (f3 << 12) | (s << 15) | (imm << 20) | (f7 << 25);
      && w & 0x7f == opc && (w >> 7) & 0x1f == d && (w >> 12) & 0x7 == f3 && (w >> 15) & 0x1f == s
      && (w >> 25) & 0x7f == f7 && ImmI(w) & 0x1f == imm
  {
  }

  lemma BitsS(f3: Raw, s: Raw, t: Raw, imm: Raw)
    requires f3 < 8 && s < 32 && t < 32 && BitsIFit(imm)
    ensures var w := 0x23 | ((imm & 0x1f) << 7) | (f3 << 12) | (s << 15) | (t << 20) | (((imm >> 5) & 0x7f) << 25);
      && w & 0x7f == 0x23 && (w >> 12) & 0x7 == f3 && (w >> 15) & 0x1f == s && (w >> 20) & 0x1f == t
      && ImmS(w) == imm
  {
  }

  lemma BitsB(f3: Raw, s: Raw, t: Raw, imm: Raw)
    requires f3 < 8 && s < 32 && t < 32 && BitsBFit(imm)
    ensures var w := 0x63 | (((imm >> 11) & 1) << 7) | (((imm >> 1) & 0xf) << 8) | (f3 << 12) | (s << 15)
                     | (t << 20) | (((imm >> 5) & 0x3f) << 25) | (((imm >> 12) & 1) << 31);
      && w & 0x7f == 0x63 && (w >> 12) & 0x7 == f3 && (w >> 15) & 0x1f == s && (w >> 20) & 0x1f == t
      && ImmB(w) == imm
  {
  }

  lemma BitsJ(d: Raw, imm: Raw)
    requires d < 32 && BitsJFit(imm)
    ensures var w := 0x6f | (d << 7) | (((imm >> 12) & 0xff) << 12) | (((imm >> 11) & 1) << 20)
                     | (((imm >> 1) & 0x3ff) << 21) | (((imm >> 20) & 1) << 31);
      w & 0x7f == 0x6f && (w >> 7) & 0x1f == d && ImmJ(w) == imm
  {
  }

  // ---- The fields of an encoded word are the fields it was encoded from ----

  lemma FieldsOfR(opc: Raw, f3: Raw, f7: Raw, i: Instruction)
    requires opc < 128 && f3 < 8 && f7 < 128
    ensures var w := EncodeR(opc, f3, f7, i);
      && Opcode(w) == opc && Funct3(w) == f3 && Funct7(w) == f7
      && RdField(w) == i.rd && Rs1Field(w) == i.rs1 && Rs2Field(w) == i.rs2
  {
    hide RegBits, RegOf;
    RegOfBits(i.rd); RegOfBits(i.rs1); RegOfBits(i.rs2);
    BitsR(opc, RegBits(i.rd), f3, RegBits(i.rs1), RegBits(i.rs2), f7);
  }

  lemma FieldsOfI(opc: Raw, f3: Raw, i: Instruction)
    requires opc < 128 && f3 < 8 && BitsIFit(i.imm)
    ensures var w := EncodeI(opc, f3, i);
            Opcode(w) == opc && Funct3(w) == f3 && RdField(w) == i.rd && Rs1Field(w) == i.rs1
  {
    hide RegBits, RegOf;
    RegOfBits(i.rd); RegOfBits(i.rs1);
    BitsI(opc, RegBits(i.rd), f3, RegBits(i.rs1), i.imm);
  }

  lemma ImmOfI(opc: Raw, f3: Raw, i: Instruction)
    requires opc < 128 && f3 < 8 && BitsIFit(i.imm)
    ensures ImmI(EncodeI(opc, f3, i)) == i.imm
  {
    hide RegBits, RegOf;
    RegOfBits(i.rd); RegOfBits(i.rs1);
    BitsI(opc, RegBits(i.rd), f3, RegBits(i.rs1), i.imm);
  }

  lemma FieldsOfShift(f3: Raw, f7: Raw, i: Instruction)
    requires f3 < 8 && f7 < 128 && i.imm < 32
    ensures var w := EncodeShift(f3, f7, i);
      && Opcode(w) == 0x13 && Funct3(w) == f3 && Funct7(w) == f7
      && RdField(w) == i.rd && Rs1Field(w) == i.rs1
  {
    hide RegBits, RegOf;
    RegOfBits(i.rd); RegOfBits(i.rs1);
    BitsShift(0x13, RegBits(i.rd), f3, RegBits(i.rs1), i.imm, f7);
  }

  lemma ImmOfShift(f3: Raw, f7: Raw, i: Instruction)
    requires f3 < 8 && f7 < 128 && i.imm < 32
    ensures ImmI(EncodeShift(f3, f7, i)) & 0x1f == i.imm
  {
    hide RegBits, RegOf;
    RegOfBits(i.rd); RegOfBits(i.rs1);
    BitsShift(0x13, RegBits(i.rd), f3, RegBits(i.rs1), i.imm, f7);
  }

  lemma FieldsOfS(f3: Raw, i: Instruction)
    requires f3 < 8 && BitsIFit(i.imm)
    ensures var w := EncodeS(f3, i);
            Opcode(w) == 0x23 && Funct3(w) == f3 && Rs1Field(w) == i.rs1 && Rs2Field(w) == i.rs2
  {
    hide RegBits, RegOf;
    RegOfBits(i.rs1); RegOfBits(i.rs2);
    BitsS(f3, RegBits(i.rs1), RegBits(i.rs2), i.imm);
  }

  lemma ImmOfS(f3: Raw, i: Instruction)
    requires f3 < 8 && BitsIFit(i.imm)
    ensures ImmS(EncodeS(f3, i)) == i.imm
  {
    hide RegBits, RegOf;
    RegOfBits(i.rs1); RegOfBits(i.rs2);
    BitsS(f3, RegBits(i.rs1), RegBits(i.rs2), i.imm);
  }

  lemma FieldsOfB(f3: Raw, i: Instruction)
    requires f3 < 8 && BitsBFit(i.imm)
    ensures var w := EncodeB(f3, i);
            Opcode(w) == 0x63 && Funct3(w) == f3 && Rs1Field(w) == i.rs1 && Rs2Field(w) == i.rs2
  {
    hide RegBits, RegOf;
    RegOfBits(i.rs1); RegOfBits(i.rs2);
    BitsB(f3, RegBits(i.rs1), RegBits(i.rs2), i.imm);
  }

  lemma ImmOfB(f3: Raw, i: Instruction)
    requires f3 < 8 && BitsBFit(i.imm)
    ensures ImmB(EncodeB(f3, i)) == i.imm
  {
    hide RegBits, RegOf;
    RegOfBits(i.rs1); RegOfBits(i.rs2);
    BitsB(f3, RegBits(i.rs1), RegBits(i.rs2), i.imm);
  }

  lemma FieldsOfJ(i: Instruction)
    requires BitsJFit(i.imm)
    ensures var w := EncodeJ(i); Opcode(w) == 0x6f && RdField(w) == i.rd
  {
    hide RegBits, RegOf;
    RegOfBits(i.rd);
    BitsJ(RegBits(i.rd), i.imm);
  }

  lemma ImmOfJ(i: Instruction)
    requires BitsJFit(i.imm)
    ensures ImmJ(EncodeJ(i)) == i.imm
  {
    hide RegBits, RegOf;
    RegOfBits(i.rd);
    BitsJ(RegBits(i.rd), i.imm);
  }

  // ---- A word is the encoding of its own fields ----

  lemma RebuildR(w: Raw)
    ensures Opcode(w) | (((w >> 7) & 0x1f) << 7) | (Funct3(w) << 12) | (((w >> 15) & 0x1f) << 15)
            | (((w >> 20) & 0x1f) << 20) | (Funct7(w) << 25) == w
  {
  }

  lemma RebuildI(w: Raw)
    ensures Opcode(w) | (((w >> 7) & 0x1f) << 7) | (Funct3(w) << 12) | (((w >> 15) & 0x1f) << 15) | (ImmI(w) << 20) == w
    ensures BitsIFit(ImmI(w))
  {
  }

  lemma RebuildShift(w: Raw)
    ensures Opcode(w) | (((w >> 7) & 0x1f) << 7) | (Funct3(w) << 12) | (((w >> 15) & 0x1f) << 15)
            | ((ImmI(w) & 0x1f) << 20) | (Funct7(w) << 25) == w
  {
  }

  lemma RebuildS(w: Raw)
    ensures var imm := ImmS(w);
      Opcode(w) | ((imm & 0x1f) << 7) | (Funct3(w) << 12) | (((w >> 15) & 0x1f) << 15) | (((w >> 20) & 0x1f) << 20)
      | (((imm >> 5) & 0x7f) << 25) == w && BitsIFit(imm)
  {
  }

  lemma FieldsFit(w: Raw)
    ensures FieldB(w) < 0x2000 && FieldB(w) & 1 == 0
    ensures FieldJ(w) < 0x20_0000 && FieldJ(w) & 1 == 0
  {
  }

  /** Sign extension keeps the bits of the field, and the result fits it. */
  lemma SextKeepsB(r: Raw, imm: Raw)
    requires r < 0x2000 && r & 1 == 0 && imm == Sext(r, 0x1000)
    ensures imm & 0x1fff == r && BitsBFit(imm)
  {
  }

  lemma SextKeepsJ(r: Raw, imm: Raw)
    requires r < 0x20_0000 && r & 1 == 0 && imm == Sext(r, 0x10_0000)
    ensures imm & 0x1f_ffff == r && BitsJFit(imm)
  {
  }

  lemma RebuildB(w: Raw, imm: Raw)
    requires imm & 0x1fff == FieldB(w)
    ensures Opcode(w) | (((imm >> 11) & 1) << 7) | (((imm >> 1) & 0xf) << 8) | (Funct3(w) << 12)
            | (((w >> 15) & 0x1f) << 15) | (((w >> 20) & 0x1f) << 20) | (((imm >> 5) & 0x3f) << 25)
            | (((imm >> 12) & 1) << 31) == w
  {
  }

  /** The register fields of a word, as bits again. */
  lemma RegFields(w: Raw)
    ensures RegBits(RdField(w)) == (w >> 7) & 0x1f
    ensures RegBits(Rs1Field(w)) == (w >> 15) & 0x1f
    ensures RegBits(Rs2Field(w)) == (w >> 20) & 0x1f
  {
    hide RegBits, RegOf;
    BitsOfReg((w >> 7) & 0x1f); BitsOfReg((w >> 15) & 0x1f); BitsOfReg((w >> 20) & 0x1f);
  }

  // ---- Round trips ----

  lemma DecodeEncodeR(i: Instruction)
    requires InRange(i) && i.op in {ADD, SUB, SLL, SLT, SLTU, XOR, SRL, SRA, OR, AND}
    ensures Decode(Encode(i)) == i
  {
    hide Opcode, Funct3, Funct7, Funct12, RdField, Rs1Field, Rs2Field, FitsI, FitsB, FitsJ, BitsIFit, BitsBFit,
         BitsJFit, ImmI, ImmS, ImmB, ImmU, ImmJ;
    hide EncodeR, EncodeI, EncodeShift, EncodeS, EncodeB, EncodeU, EncodeJ, BranchOp, LoadOp, StoreOp, ImmediateOp;
    match i.op
    case ADD => FieldsOfR(0x33, 0, 0x00, i);
    case SUB => FieldsOfR(0x33, 0, 0x20, i);
    case SLL => FieldsOfR(0x33, 1, 0x00, i);
    case SLT => FieldsOfR(0x33, 2, 0x00, i);
    case SLTU => FieldsOfR(0x33, 3, 0x00, i);
    case XOR => FieldsOfR(0x33, 4, 0x00, i);
    case SRL => FieldsOfR(0x33, 5, 0x00, i);
    case SRA => FieldsOfR(0x33, 5, 0x20, i);
    case OR => FieldsOfR(0x33, 6, 0x00, i);
    case AND => FieldsOfR(0x33, 7, 0x00, i);
  }

  lemma DecodeEncodeI(i: Instruction)
    requires InRange(i) && i.op in {ADDI, SLTI, SLTIU, XORI, ORI, ANDI, LB, LH, LW, LBU, LHU, JALR}
    ensures Decode(Encode(i)) == i
  {
    hide Opcode, Funct3, Funct7, Funct12, RdField, Rs1Field, Rs2Field, FitsI, FitsB, FitsJ, BitsIFit, BitsBFit,
         BitsJFit, ImmI, ImmS, ImmB, ImmU, ImmJ;
    hide EncodeR, EncodeI, EncodeShift, EncodeS, EncodeB, EncodeU, EncodeJ, BranchOp, StoreOp, RegisterOp;
    FitsInBits(i.imm);
    match i.op
    case ADDI => FieldsOfI(0x13, 0, i); ImmOfI(0x13, 0, i);
    case SLTI => FieldsOfI(0x13, 2, i); ImmOfI(0x13, 2, i);
    case SLTIU => FieldsOfI(0x13, 3, i); ImmOfI(0x13, 3, i);
    case XORI => FieldsOfI(0x13, 4, i); ImmOfI(0x13, 4, i);
    case ORI => FieldsOfI(0x13, 6, i); ImmOfI(0x13, 6, i);
    case ANDI => FieldsOfI(0x13, 7, i); ImmOfI(0x13, 7, i);
    case LB => FieldsOfI(0x03, 0, i); ImmOfI(0x03, 0, i);
    case LH => FieldsOfI(0x03, 1, i); ImmOfI(0x03, 1, i);
    case LW => FieldsOfI(0x03, 2, i); ImmOfI(0x03, 2, i);
    case LBU => FieldsOfI(0x03, 4, i); ImmOfI(0x03, 4, i);
    case LHU => FieldsOfI(0x03, 5, i); ImmOfI(0x03, 5, i);
    case JALR => FieldsOfI(0x67, 0, i); ImmOfI(0x67, 0, i);
  }

  lemma DecodeEncodeShift(i: Instruction)
    requires InRange(i) && IsShiftImmediate(i.op)
    ensures Decode(Encode(i)) == i
  {
    hide Opcode, Funct3, Funct7, Funct12, RdField, Rs1Field, Rs2Field, FitsI, FitsB, FitsJ, BitsIFit, BitsBFit,
         BitsJFit, ImmI, ImmS, ImmB, ImmU, ImmJ;
    hide EncodeR, EncodeI, EncodeShift, EncodeS, EncodeB, EncodeU, EncodeJ, BranchOp, LoadOp, StoreOp, RegisterOp;
    match i.op
    case SLLI => FieldsOfShift(1, 0x00, i); ImmOfShift(1, 0x00, i);
    case SRLI => FieldsOfShift(5, 0x00, i); ImmOfShift(5, 0x00, i);
    case SRAI => FieldsOfShift(5, 0x20, i); ImmOfShift(5, 0x20, i);
  }

  lemma DecodeEncodeSB(i: Instruction)
    requires InRange(i) && (IsStore(i.op) || IsCondBranch(i.op))
    ensures Decode(Encode(i)) == i
  {
    hide Opcode, Funct3, Funct7, Funct12, RdField, Rs1Field, Rs2Field, FitsI, FitsB, FitsJ, BitsIFit, BitsBFit,
         BitsJFit, ImmI, ImmS, ImmB, ImmU, ImmJ;
    hide EncodeR, EncodeI, EncodeShift, EncodeS, EncodeB, EncodeU, EncodeJ, LoadOp, ImmediateOp, RegisterOp;
    FitsInBits(i.imm);
    match i.op
    case SB => FieldsOfS(0, i); ImmOfS(0, i);
    case SH => FieldsOfS(1, i); ImmOfS(1, i);
    case SW => FieldsOfS(2, i); ImmOfS(2, i);
    case BEQ => FieldsOfB(0, i); ImmOfB(0, i);
    case BNE => FieldsOfB(1, i); ImmOfB(1, i);
    case BLT => FieldsOfB(4, i); ImmOfB(4, i);
    case BGE => FieldsOfB(5, i); ImmOfB(5, i);
    case BLTU => FieldsOfB(6, i); ImmOfB(6, i);
    case BGEU => FieldsOfB(7, i); ImmOfB(7, i);
  }

  lemma DecodeEncodeU(i: Instruction)
    requires InRange(i) && (i.op == LUI || i.op == AUIPC)
    ensures Decode(Encode(i)) == i
  {
    hide RegBits, RegOf;
    RegOfBits(i.rd);
  }

  lemma DecodeEncodeJ(i: Instruction)
    requires InRange(i) && i.op == JAL
    ensures Decode(Encode(i)) == i
  {
    hide FitsI, FitsB, FitsJ, BitsIFit, BitsBFit, BitsJFit;
    FitsInBits(i.imm);
    FieldsOfJ(i); ImmOfJ(i);
    hide Opcode, RdField, EncodeJ, ImmJ, FitsJ;
  }

  /** Decoding the encoding of any instruction RV32I can express gives that instruction back. */
  lemma DecodeEncode(i: Instruction)
    requires InRange(i)
    ensures Decode(Encode(i)) == i
  {
    hide Decode, FitsI, FitsB, FitsJ;
    hide EncodeR, EncodeI, EncodeShift, EncodeS, EncodeB, EncodeU, EncodeJ;
    match i.op
    case ADD | SUB | SLL | SLT | SLTU | XOR | SRL | SRA | OR | AND => DecodeEncodeR(i);
    case ADDI | SLTI | SLTIU | XORI | ORI | ANDI | LB | LH | LW | LBU | LHU | JALR => DecodeEncodeI(i);
    case SLLI | SRLI | SRAI => DecodeEncodeShift(i);
    case SB | SH | SW | BEQ | BNE | BLT | BGE | BLTU | BGEU => DecodeEncodeSB(i);
    case LUI | AUIPC => DecodeEncodeU(i);
    case JAL => DecodeEncodeJ(i);
    case ECALL => DecodeEncodeEcall();
    case EBREAK => DecodeEncodeEbreak();
    case FENCE => DecodeEncodeFence();
  }

  lemma DecodeEncodeEcall()
    ensures Decode(0x0000_0073) == Instruction(ECALL, 0, 0, 0, 0)
  {
  }
  lemma DecodeEncodeEbreak()
    ensures Decode(0x0010_0073) == Instruction(EBREAK, 0, 0, 0, 0)
  {
  }
  lemma DecodeEncodeFence()
    ensures Decode(0x0000_000f) == Instruction(FENCE, 0, 0, 0, 0)
  {
  }

  lemma SelfR(w: Raw, i: Instruction)
    requires i.rd == RdField(w) && i.rs1 == Rs1Field(w) && i.rs2 == Rs2Field(w)
    ensures EncodeR(Opcode(w), Funct3(w), Funct7(w), i) == w
  {
    RegFields(w); RebuildR(w);
    hide RegBits, RdField, Rs1Field, Rs2Field;
  }

  lemma SelfI(w: Raw, i: Instruction)
    requires i.rd == RdField(w) && i.rs1 == Rs1Field(w) && i.imm == ImmI(w)
    ensures EncodeI(Opcode(w), Funct3(w), i) == w
  {
    RegFields(w); RebuildI(w);
    hide RegBits, RdField, Rs1Field, Rs2Field;
  }

  lemma SelfShift(w: Raw, i: Instruction)
    requires Opcode(w) == 0x13 && i.rd == RdField(w) && i.rs1 == Rs1Field(w) && i.imm == ImmI(w) & 0x1f
    ensures EncodeShift(Funct3(w), Funct7(w), i) == w && i.imm < 32
  {
    RegFields(w); RebuildShift(w);
    hide RegBits, RdField, Rs1Field, Rs2Field;
  }

  lemma SelfS(w: Raw, i: Instruction)
    requires Opcode(w) == 0x23 && i.rs1 == Rs1Field(w) && i.rs2 == Rs2Field(w) && i.imm == ImmS(w)
    ensures EncodeS(Funct3(w), i) == w
  {
    RegFields(w); RebuildS(w);
    hide RegBits, RdField, Rs1Field, Rs2Field;
  }

  lemma SelfB(w: Raw, i: Instruction)
    requires Opcode(w) == 0x63 && i.rs1 == Rs1Field(w) && i.rs2 == Rs2Field(w) && i.imm & 0x1fff == FieldB(w)
    ensures EncodeB(Funct3(w), i) == w
  {
    RegFields(w); RebuildB(w, i.imm);
    hide RegBits, RdField, Rs1Field, Rs2Field;
  }

  lemma Funct3Bound(w: Raw)
    ensures Funct3(w) < 8
  {
  }

  lemma RegisterSelf(w: Raw, i: Instruction)
    requires Opcode(w) == 0x33 && !i.op.ILLEGAL?
    requires i == Instruction(RegisterOp(Funct3(w), Funct7(w)), RdField(w), Rs1Field(w), Rs2Field(w), 0)
    ensures InRange(i) && Encode(i) == w
  {
    hide Opcode, Funct3, Funct7, Funct12, RdField, Rs1Field, Rs2Field, FitsI, FitsB, FitsJ, BitsIFit, BitsBFit,
         BitsJFit, ImmI, ImmS, ImmB, ImmU, ImmJ;
    hide EncodeR, EncodeI, EncodeShift, EncodeS, EncodeB, EncodeU, EncodeJ, Decode;
    Funct3Bound(w);
    SelfR(w, i);
  }

  lemma EncodeDecodeR(w: Raw)
    requires Opcode(w) == 0x33 && !RegisterOp(Funct3(w), Funct7(w)).ILLEGAL?
    ensures InRange(Decode(w)) && Encode(Decode(w)) == w
  {
    hide Encode, InRange, RegisterOp, Opcode, Funct3, Funct7, RdField, Rs1Field, Rs2Field;
    RegisterSelf(w, Decode(w));
  }

  lemma ImmediateSelf(w: Raw, i: Instruction)
    requires Opcode(w) == 0x13 && !i.op.ILLEGAL? && !IsShiftImmediate(i.op)
    requires i == Instruction(ImmediateOp(Funct3(w), Funct7(w)), RdField(w), Rs1Field(w), 0, ImmI(w))
    ensures InRange(i) && Encode(i) == w
  {
    hide Opcode, Funct3, Funct7, Funct12, RdField, Rs1Field, Rs2Field, FitsI, FitsB, FitsJ, BitsIFit, BitsBFit,
         BitsJFit, ImmI, ImmS, ImmB, ImmU, ImmJ;
    hide EncodeR, EncodeI, EncodeShift, EncodeS, EncodeB, EncodeU, EncodeJ, Decode;
    Funct3Bound(w);
    SelfI(w, i); RebuildI(w); FitsInBits(ImmI(w));
  }

  lemma EncodeDecodeImm(w: Raw)
    requires Opcode(w) == 0x13 && !Decode(w).op.ILLEGAL? && !IsShiftImmediate(Decode(w).op)
    ensures InRange(Decode(w)) && Encode(Decode(w)) == w
  {
    hide Encode, InRange, ImmediateOp, IsShiftImmediate, Opcode, Funct3, Funct7, RdField, Rs1Field, ImmI;
    ImmediateSelf(w, Decode(w));
  }

  lemma EncodeDecodeLoad(w: Raw)
    requires Opcode(w) == 0x03 && !Decode(w).op.ILLEGAL?
    ensures InRange(Decode(w)) && Encode(Decode(w)) == w
  {
    hide Opcode, Funct3, Funct7, Funct12, RdField, Rs1Field, Rs2Field, FitsI, FitsB, FitsJ, BitsIFit, BitsBFit,
         BitsJFit, ImmI, ImmS, ImmB, ImmU, ImmJ;
    hide EncodeR, EncodeI, EncodeShift, EncodeS, EncodeB, EncodeU, EncodeJ;
    hide BranchOp, StoreOp, ImmediateOp, RegisterOp;
    SelfI(w, Decode(w)); RebuildI(w); FitsInBits(ImmI(w));
  }

  lemma JalrSelf(w: Raw, i: Instruction)
    requires Opcode(w) == 0x67 && Funct3(w) == 0 && i == Instruction(JALR, RdField(w), Rs1Field(w), 0, ImmI(w))
    ensures InRange(i) && Encode(i) == w
  {
    hide Opcode, Funct3, Funct7, Funct12, RdField, Rs1Field, Rs2Field, FitsI, FitsB, FitsJ, BitsIFit, BitsBFit,
         BitsJFit, ImmI, ImmS, ImmB, ImmU, ImmJ;
    hide EncodeR, EncodeI, EncodeShift, EncodeS, EncodeB, EncodeU, EncodeJ, Decode;
    SelfI(w, i); RebuildI(w); FitsInBits(ImmI(w));
  }

  lemma EncodeDecodeJalr(w: Raw)
    requires Opcode(w) == 0x67 && !Decode(w).op.ILLEGAL?
    ensures InRange(Decode(w)) && Encode(Decode(w)) == w
  {
    hide Encode, InRange, Opcode, Funct3, RdField, Rs1Field, Rs2Field, ImmI;
    JalrSelf(w, Decode(w));
  }

  lemma EncodeDecodeShift(w: Raw)
    requires Opcode(w) == 0x13 && IsShiftImmediate(ImmediateOp(Funct3(w), Funct7(w)))
    ensures InRange(Decode(w)) && Encode(Decode(w)) == w
  {
    hide Opcode, Funct3, Funct7, Funct12, RdField, Rs1Field, Rs2Field, FitsI, FitsB, FitsJ, BitsIFit, BitsBFit,
         BitsJFit, ImmI, ImmS, ImmB, ImmU, ImmJ;
    hide EncodeR, EncodeI, EncodeShift, EncodeS, EncodeB, EncodeU, EncodeJ, BranchOp, LoadOp, StoreOp, RegisterOp;
    Funct3Bound(w);
    SelfShift(w, Decode(w));
  }

  lemma EncodeDecodeS(w: Raw)
    requires Opcode(w) == 0x23 && !StoreOp(Funct3(w)).ILLEGAL?
    ensures InRange(Decode(w)) && Encode(Decode(w)) == w
  {
    hide Opcode, Funct3, Funct7, Funct12, RdField, Rs1Field, Rs2Field, FitsI, FitsB, FitsJ, BitsIFit, BitsBFit,
         BitsJFit, ImmI, ImmS, ImmB, ImmU, ImmJ;
    hide EncodeR, EncodeI, EncodeShift, EncodeS, EncodeB, EncodeU, EncodeJ, BranchOp, LoadOp, ImmediateOp, RegisterOp;
    SelfS(w, Decode(w)); RebuildS(w); FitsInBits(ImmS(w));
  }

  lemma EncodeDecodeB(w: Raw)
    requires Opcode(w) == 0x63 && !BranchOp(Funct3(w)).ILLEGAL?
    ensures InRange(Decode(w)) && Encode(Decode(w)) == w
  {
    FieldsFit(w); SextKeepsB(FieldB(w), ImmB(w));
    hide Opcode, Funct3, Funct7, Funct12, RdField, Rs1Field, Rs2Field, FitsI, FitsB, FitsJ, BitsIFit, BitsBFit,
         BitsJFit, ImmI, ImmS, ImmB, ImmU, ImmJ;
    hide EncodeR, EncodeI, EncodeShift, EncodeS, EncodeB, EncodeU, EncodeJ, LoadOp, StoreOp, ImmediateOp, RegisterOp,
         FieldB;
    SelfB(w, Decode(w)); FitsInBits(ImmB(w));
  }

  lemma LuiSelf(w: Raw, i: Instruction)
    requires Opcode(w) == 0x37 && i == Instruction(LUI, RdField(w), 0, 0, ImmU(w))
    ensures InRange(i) && Encode(i) == w
  {
    hide RegBits, RegOf;
    RegFields(w);
  }

  lemma AuipcSelf(w: Raw, i: Instruction)
    requires Opcode(w) == 0x17 && i == Instruction(AUIPC, RdField(w), 0, 0, ImmU(w))
    ensures InRange(i) && Encode(i) == w
  {
    hide RegBits, RegOf;
    RegFields(w);
  }

  lemma EncodeDecodeU(w: Raw)
    requires Opcode(w) == 0x37 || Opcode(w) == 0x17
    ensures InRange(Decode(w)) && Encode(Decode(w)) == w
  {
    hide Encode, InRange, Opcode, RdField, ImmU;
    if Opcode(w) == 0x37 {
      LuiSelf(w, Decode(w));
    } else {
      AuipcSelf(w, Decode(w));
    }
  }

  lemma JumpSelf(w: Raw, i: Instruction)
    requires Opcode(w) == 0x6f && i.imm & 0x1f_ffff == FieldJ(w) && FitsJ(i.imm)
    requires i == Instruction(JAL, RdField(w), 0, 0, i.imm)
    ensures InRange(i) && Encode(i) == w
  {
    hide RegBits, RegOf;
    RegFields(w);
  }

  lemma EncodeDecodeJ(w: Raw)
    requires Opcode(w) == 0x6f
    ensures InRange(Decode(w)) && Encode(Decode(w)) == w
  {
    FieldsFit(w); SextKeepsJ(FieldJ(w), ImmJ(w));
    hide Encode, InRange, Opcode, RdField, ImmJ, FieldJ, FitsI, FitsB, FitsJ, BitsIFit, BitsBFit, BitsJFit;
    FitsInBits(ImmJ(w));
    JumpSelf(w, Decode(w));
  }

  /** Every accepted word decodes to an instruction in range, and encoding that instruction gives
      the word back; FENCE, ECALL and EBREAK are excepted, because the decoder drops their unused
      fields. */
  lemma EncodeDecode(w: Raw)
    requires !Decode(w).op.ILLEGAL?
    ensures InRange(Decode(w))
    ensures !Decode(w).op.FENCE? && !Decode(w).op.ECALL? && !Decode(w).op.EBREAK? ==> Encode(Decode(w)) == w
  {
    hide Opcode, Funct3, Funct7, Funct12, RdField, Rs1Field, Rs2Field, ImmI, ImmS, ImmB, ImmU, ImmJ;
    hide Encode, BranchOp, LoadOp, StoreOp, ImmediateOp, RegisterOp;
    var opc := Opcode(w);
    if opc == 0x33 {
      EncodeDecodeR(w);
    } else if opc == 0x13 && IsShiftImmediate(Decode(w).op) {
      EncodeDecodeShift(w);
    } else if opc == 0x13 {
      EncodeDecodeImm(w);
    } else if opc == 0x03 {
      EncodeDecodeLoad(w);
    } else if opc == 0x67 {
      EncodeDecodeJalr(w);
    } else if opc == 0x23 {
      EncodeDecodeS(w);
    } else if opc == 0x63 {
      EncodeDecodeB(w);
    } else if opc == 0x37 || opc == 0x17 {
      EncodeDecodeU(w);
    } else if opc == 0x6f {
      EncodeDecodeJ(w);
    }
  }
}
