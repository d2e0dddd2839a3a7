/** The interpreter's operations in terms of numbers and single bits, without the word operations it is
    written with: what signed comparison, the logical operations, the shifts and the loads mean. */
module IsaValues {
  import opened Words
  import opened Bits
  import opened Numbers
  import opened Decoder
  import opened ByteMemory
  import opened Interpreter

  // ---- Comparisons ----

  /** As int32_t, words with the top bit set come before all others. */
  predicate Before(x: Word, y: Word) {
    if (x >= 0x8000_0000) == (y >= 0x8000_0000) then x < y else x >= 0x8000_0000
  }

  lemma SignedOrder(x: Word, y: Word)
    ensures Compute(SLT, x, y) == Compute(SLTI, x, y) == if Before(x, y) then 1 else 0
    ensures Compute(SLTU, x, y) == Compute(SLTIU, x, y) == if x < y then 1 else 0
    ensures Condition(BLT, x, y) == Before(x, y) && Condition(BGE, x, y) == !Before(x, y)
    ensures Condition(BLTU, x, y) == (x < y) && Condition(BGEU, x, y) == (x >= y)
  {
  }

  // ---- Logical operations ----

  lemma LogicOps(x: Word, y: Word, i: nat)
    requires i < 32
    ensures BitOf(Compute(AND, x, y), i) == BitOf(Compute(ANDI, x, y), i) == (BitOf(x, i) && BitOf(y, i))
    ensures BitOf(Compute(OR, x, y), i) == BitOf(Compute(ORI, x, y), i) == (BitOf(x, i) || BitOf(y, i))
    ensures BitOf(Compute(XOR, x, y), i) == BitOf(Compute(XORI, x, y), i) == (BitOf(x, i) != BitOf(y, i))
  {
    hide BitOf, BitAnd, BitOr, BitXor;
    LogicBits(x, y, i);
  }

  // ---- Shifts ----

  lemma ZeroBits(i: nat)
    ensures !BitOf(0, i)
  {
    DivIs(0, Pow2(i), 0, 0);
  }

  /** A number below 2^n has no bit from n on. */
  lemma NoBits(x: nat, n: nat, j: nat)
    requires x < Pow2(n) && n <= j
    ensures !BitOf(x, j)
  {
    hide BitOf;
    JoinBits(x, 0, n, j);
    ZeroBits(j - n);
  }

  lemma RightBit(x: nat, k: nat, i: nat)
    ensures x / Pow2(k) >= 0 && BitOf(x / Pow2(k), i) == BitOf(x, k + i)
  {
    ShrIs(x, k);
    ShrIs(Shr(x, k), i);
    ShrIs(x, k + i);
    ShrShr(x, k, i);
    hide Shr;
  }

  lemma LeftBit(x: Word, k: nat, i: nat)
    requires i < 32
    ensures BitOf(x * Pow2(k) % 0x1_0000_0000, i) == (i >= k && BitOf(x, i - k))
  {
    hide BitOf, Pow2;
    var y := x * Pow2(k);
    Pow2Of32();
    JoinBits(y % Pow2(32), y / Pow2(32), 32, i);
    assert y % Pow2(32) + Pow2(32) * (y / Pow2(32)) == y;
    JoinBits(0, x, k, i);
    assert 0 + Pow2(k) * x == y;
    ZeroBits(i);
  }

  /** For p * m == 2^32, dividing x - 2^32 by p is dividing x by p and taking m away. */
  lemma NegativeQuotient(x: Word, p: nat, m: nat)
    requires p > 0 && p * m == 0x1_0000_0000
    ensures 0 <= x / p < m && (x - 0x1_0000_0000) / p == x / p - m
  {
    var q := x / p;
    assert x == p * q + x % p;
    if q < 0 { MulGrows(p, q, 0); }
    if q >= m { MulGrows(p, m - 1, q); }
    assert p * (q - m) == p * q - p * m;
    DivIs(x - 0x1_0000_0000, p, q - m, x % p);
  }

  lemma NegativeForm(x: Word, p: nat, m: nat)
    requires p > 0 && p * m == 0x1_0000_0000
    ensures 0 <= x / p < m && (x - 0x1_0000_0000) / p % 0x1_0000_0000 == x / p + m * (p - 1)
  {
    NegativeQuotient(x, p, m);
    AtMost(p, m);
    var q := x / p;
    assert (q - m) % 0x1_0000_0000 == q - m + 0x1_0000_0000;
    assert m * (p - 1) == p * m - m;
  }

  /** An arithmetic shift of a negative number fills with ones from the top. */
  lemma NegativeShift(x: Word, k: nat)
    requires k < 32
    ensures 0 <= x / Pow2(k) < Pow2(32 - k)
    ensures (x - 0x1_0000_0000) / Pow2(k) % 0x1_0000_0000 == x / Pow2(k) + Pow2(32 - k) * (Pow2(k) - 1)
  {
    hide Pow2;
    Complement(k, 32 - k);
    NegativeForm(x, Pow2(k), Pow2(32 - k));
  }

  lemma Complement(k: nat, m: nat)
    requires k + m == 32
    ensures Pow2(k) * Pow2(m) == 0x1_0000_0000
  {
    hide Pow2;
    Pow2Sum(k, m);
    Pow2Of32();
  }

  lemma AtMost(p: nat, m: nat)
    requires p > 0
    ensures m <= p * m
  {
    assert p * m == m + (p - 1) * m;
  }

  lemma TopBit(x: Word)
    ensures BitOf(x, 31) == (x >= 0x8000_0000)
  {
    assert Pow2(31) == 0x8000_0000 by { Pow2Of32(); assert Pow2(32) == 2 * Pow2(31); }
    hide BitOf, Pow2;
    if x >= 0x8000_0000 {
      JoinBits(x - 0x8000_0000, 1, 31, 31);
      BitZero(1);
    } else {
      NoBits(x, 31, 31);
    }
  }

  lemma ArithmeticBit(x: Word, k: nat, i: nat)
    requires i < 32 && k < 32
    ensures BitOf(Signed(x) / Pow2(k) % 0x1_0000_0000, i) == BitOf(x, if i + k < 32 then i + k else 31)
  {
    hide BitOf, Pow2;
    TopBit(x);
    RightBit(x, k, i);
    if x >= 0x8000_0000 {
      NegativeShift(x, k);
      JoinBits(x / Pow2(k), Pow2(k) - 1, 32 - k, i);
      if i + k >= 32 { OnesBits(k, i + k - 32); }
    } else {
      Quotient(x, k);
      Pow2Of32();
      if i + k >= 32 { NoBits(x, 32, i + k); }
    }
  }

  lemma Quotient(x: Word, k: nat)
    ensures 0 <= x / Pow2(k) <= x && x / Pow2(k) % 0x1_0000_0000 == x / Pow2(k)
  {
    ShrIs(x, k);
  }

  /** The three shifts, bit by bit; the amount is the low five bits of the second operand. */
  lemma ShiftBits(x: Word, y: Word, i: nat)
    requires i < 32
    ensures var k := y % 32;
      && BitOf(Compute(SLL, x, y), i) == BitOf(Compute(SLLI, x, y), i) == (i >= k && BitOf(x, i - k))
      && BitOf(Compute(SRL, x, y), i) == BitOf(Compute(SRLI, x, y), i) == (i + k < 32 && BitOf(x, i + k))
      && BitOf(Compute(SRA, x, y), i) == BitOf(Compute(SRAI, x, y), i) == BitOf(x, if i + k < 32 then i + k else 31)
  {
    hide BitOf, Pow2, Signed;
    var k := y % 32;
    LeftBit(x, k, i);
    Quotient(x, k);
    RightBit(x, k, i);
    Pow2Of32();
    if i + k >= 32 { NoBits(x, 32, i + k); }
    ArithmeticBit(x, k, i);
  }

  // ---- Loads and fetches ----

  /** The value of a load, as a signed or unsigned number. */
  lemma LoadValues(op: Op, m: Bytes, addr: Word)
    requires IsLoad(op)
    ensures var v, b, h := LoadResult(op, m, addr), LoadByte(m, addr), LoadHalf(m, addr);
      match op
      case LB => Signed(v) == if b >= 0x80 then b - 0x100 else b
      case LH => Signed(v) == if h >= 0x8000 then h - 0x1_0000 else h
      case LBU => v == b
      case LHU => v == h
      case _ => v == LoadWord(m, addr)
  {
    hide LoadByte, LoadHalf, LoadWord;
    Pow2Values();
  }

  /** The fetched pattern is the word in memory. */
  lemma FetchedWord(prog: Bytes, pc: Word)
    ensures ToWord(Fetch(prog, pc)) == LoadWord(prog, pc)
  {
    hide ToWord, ToRaw, LoadWord;
    RawValue(LoadWord(prog, pc));
  }

  // ---- Instructions that only pass or stop ----

  /** FENCE and ECALL go on to the next word and change nothing; EBREAK and an illegal word stop. */
  lemma PassOrStop(prog: Bytes, a: Arch)
    ensures InstructionAt(prog, a.pc).op in {FENCE, ECALL} ==>
              !Halted(prog, a) && Exec(prog, a) == Arch((a.pc + 4) % 0x1_0000_0000, a.regs, a.mem)
    ensures InstructionAt(prog, a.pc).op in {EBREAK, ILLEGAL} ==> Halted(prog, a) && Exec(prog, a) == a
    ensures Halted(prog, a) ==> InstructionAt(prog, a.pc).op in {EBREAK, ILLEGAL}
  {
    hide Decode, Fetch;
  }
}
