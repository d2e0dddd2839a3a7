/** src/uarch/alu.cpp: the combinational ALU and the branch comparator. */
module Alu {
  import opened Words
  import opened Decoder

  datatype AluOp =
    | Plus | Minus | And | Or | Xor
    | ShiftLeft | ShiftRight | ShiftRightSigned
    | LessSigned | LessUnsigned
    | PassB

  function AluExec(op: AluOp, a: Word, b: Word): Word {
    match op
    case Plus => Add(a, b)
    case Minus => Sub(a, b)
    case And => BitAnd(a, b)
    case Or => BitOr(a, b)
    case Xor => BitXor(a, b)
    case ShiftLeft => Unsigned(a * Pow2(b % 32))
    case ShiftRight => Unsigned(a / Pow2(b % 32))
    case ShiftRightSigned => Unsigned(Signed(a) / Pow2(b % 32))
    case LessSigned => if Signed(a) < Signed(b) then 1 else 0
    case LessUnsigned => if a < b then 1 else 0
    case PassB => b
  }

  function AluOpFor(op: Op): AluOp {
    match op
    case ADD | ADDI => Plus
    case SUB => Minus
    case AND | ANDI => And
    case OR | ORI => Or
    case XOR | XORI => Xor
    case SLL | SLLI => ShiftLeft
    case SRL | SRLI => ShiftRight
    case SRA | SRAI => ShiftRightSigned
    case SLT | SLTI => LessSigned
    case SLTU | SLTIU => LessUnsigned
    case LUI => PassB
    case _ => Plus
  }

  predicate BranchTaken(op: Op, v1: Word, v2: Word) {
    match op
    case BEQ => v1 == v2
    case BNE => v1 != v2
    case BLT => Signed(v1) < Signed(v2)
    case BGE => Signed(v1) >= Signed(v2)
    case BLTU => v1 < v2
    case BGEU => v1 >= v2
    case _ => false
  }
}
