/** What the word operations are as numbers, stated without the operations: signed values, single bits,
    shifts and masks, bit patterns and sign-extended fields. */
module Numbers {
  import opened Words
  import opened Bits
  import opened Encoding

  // ---- Signed values ----

  /** Signed(a) is the int32_t that converts back to a. */
  lemma SignedIs(a: Word)
    ensures -0x8000_0000 <= Signed(a) < 0x8000_0000 && Signed(a) % 0x1_0000_0000 == a
    ensures Unsigned(Signed(a)) == a
  {
  }

  // ---- Shifts and masks ----

  lemma HalfDiv(a: nat, p: nat)
    requires p > 0
    ensures a / 2 / p == a / (2 * p)
  {
    var q := a / 2 / p;
    var r := a / 2 % p;
    assert a == 2 * (p * q + r) + a % 2;
    assert a == (2 * p) * q + (2 * r + a % 2);
    DivIs(a, 2 * p, q, 2 * r + a % 2);
  }

  lemma MulGrows(p: nat, x: int, y: int)
    requires x < y
    ensures p * x + p <= p * y
  {
    assert p * y == p * x + p + p * (y - x - 1);
  }

  /** Quotient and remainder are unique. */
  lemma DivIs(a: int, p: nat, q: int, r: nat)
    requires a == p * q + r && r < p
    ensures a / p == q && a % p == r
  {
    var d := a / p;
    if q < d { MulGrows(p, q, d); }
    if d < q { MulGrows(p, d, q); }
  }

  lemma {:induction false} ShrIs(a: nat, k: nat)
    ensures Shr(a, k) == a / Pow2(k)
  {
    if k > 0 {
      ShrIs(a / 2, k - 1);
      HalfDiv(a, Pow2(k - 1));
    }
  }

  lemma {:induction false} ShlIs(a: nat, k: nat)
    ensures Shl(a, k) == a * Pow2(k)
  {
    if k > 0 {
      ShlIs(a, k - 1);
      assert a * Pow2(k) == 2 * (a * Pow2(k - 1));
    }
  }

  lemma LowBitsIs(a: nat, k: nat)
    ensures LowBits(a, k) == a % Pow2(k)
  {
    SplitBits(a, k);
    ShlIs(Shr(a, k), k);
    DivIs(a, Pow2(k), Shr(a, k), LowBits(a, k));
  }

  // ---- Single bits ----

  predicate BitOf(a: nat, i: nat) { a / Pow2(i) % 2 == 1 }

  lemma BitZero(a: nat)
    ensures BitOf(a, 0) == (a % 2 == 1)
  {
    assert Pow2(0) == 1;
  }

  lemma BitNext(a: nat, i: nat)
    ensures BitOf(a, i + 1) == BitOf(a / 2, i)
  {
    HalfDiv(a, Pow2(i));
  }

  lemma {:induction false} BitwiseBit(f: (bool, bool) -> bool, a: nat, b: nat, bits: nat, i: nat)
    requires i < bits
    ensures BitOf(Bitwise(f, a, b, bits), i) == f(BitOf(a, i), BitOf(b, i))
  {
    var rest := Bitwise(f, a / 2, b / 2, bits - 1);
    var r := Bitwise(f, a, b, bits);
    assert r / 2 == rest && (r % 2 == 1) == f(a % 2 == 1, b % 2 == 1);
    hide Bitwise, BitOf;
    if i == 0 {
      BitZero(r); BitZero(a); BitZero(b);
    } else {
      BitwiseBit(f, a / 2, b / 2, bits - 1, i - 1);
      BitNext(r, i - 1); BitNext(a, i - 1); BitNext(b, i - 1);
    }
  }

  /** The three logical operations, bit by bit. */
  lemma LogicBits(a: Word, b: Word, i: nat)
    requires i < 32
    ensures BitOf(BitAnd(a, b), i) == (BitOf(a, i) && BitOf(b, i))
    ensures BitOf(BitOr(a, b), i) == (BitOf(a, i) || BitOf(b, i))
    ensures BitOf(BitXor(a, b), i) == (BitOf(a, i) != BitOf(b, i))
  {
    hide Bitwise, BitOf;
    BitwiseBit((x, y) => x && y, a, b, 32, i);
    BitwiseBit((x, y) => x || y, a, b, 32, i);
    BitwiseBit((x, y) => x != y, a, b, 32, i);
  }

  lemma JoinHalf(q: nat, h: nat, m: nat)
    requires m > 0
    ensures var y := q + Pow2(m) * h; y / 2 == q / 2 + Pow2(m - 1) * h && y % 2 == q % 2
  {
    var p := Pow2(m - 1) * h;
    assert Pow2(m) * h == 2 * p;
  }

  /** h above the m low bits of q. */
  lemma {:induction false} JoinBits(q: nat, h: nat, m: nat, i: nat)
    requires q < Pow2(m)
    ensures BitOf(q + Pow2(m) * h, i) == if i < m then BitOf(q, i) else BitOf(h, i - m)
  {
    hide BitOf;
    var y := q + Pow2(m) * h;
    if m == 0 {
      assert y == h;
    } else {
      JoinHalf(q, h, m);
      assert q / 2 < Pow2(m - 1);
      hide Pow2;
      if i == 0 {
        BitZero(y); BitZero(q);
      } else {
        JoinBits(q / 2, h, m - 1, i - 1);
        BitNext(y, i - 1); BitNext(q, i - 1);
      }
    }
  }

  lemma {:induction false} OnesBits(k: nat, i: nat)
    requires i < k
    ensures BitOf(Pow2(k) - 1, i)
  {
    assert (Pow2(k) - 1) / 2 == Pow2(k - 1) - 1 && (Pow2(k) - 1) % 2 == 1;
    hide BitOf;
    if i == 0 {
      BitZero(Pow2(k) - 1);
    } else {
      OnesBits(k - 1, i - 1);
      BitNext(Pow2(k) - 1, i - 1);
    }
  }

  lemma {:induction false} Pow2Sum(i: nat, j: nat)
    ensures Pow2(i + j) == Pow2(i) * Pow2(j)
  {
    if i > 0 {
      Pow2Sum(i - 1, j);
      assert Pow2(i + j) == 2 * (Pow2(i - 1) * Pow2(j)) == Pow2(i) * Pow2(j);
    }
  }

  // ---- Bit patterns ----

  /** y above the low 8, 16 or 24 bits of x. */
  function Or8(x: Raw, y: Raw): Raw { x | (y << 8) }
  function Or16(x: Raw, y: Raw): Raw { x | (y << 16) }
  function Or24(x: Raw, y: Raw): Raw { x | (y << 24) }

  lemma ShiftedByte(y: Raw)
    requires y < 0x100
    ensures (y << 8) as nat == 0x100 * (y as nat) && (y << 16) as nat == 0x1_0000 * (y as nat)
    ensures (y << 24) as nat == 0x100_0000 * (y as nat)
  {
  }

  lemma Or8Value(x: Raw, y: Raw)
    requires x < 0x100 && y < 0x100
    ensures Or8(x, y) < 0x1_0000 && Or8(x, y) as nat == x as nat + 0x100 * (y as nat)
  {
    ShiftedByte(y);
  }

  lemma Or16Value(x: Raw, y: Raw)
    requires x < 0x1_0000 && y < 0x100
    ensures Or16(x, y) < 0x100_0000 && Or16(x, y) as nat == x as nat + 0x1_0000 * (y as nat)
  {
    ShiftedByte(y);
  }

  lemma TopByte(x: Raw, y: Raw)
    requires x < 0x100_0000 && y < 0x100
    ensures (x | (y << 24)) as nat == x as nat + (y << 24) as nat
  {
  }

  lemma Or24Value(x: Raw, y: Raw)
    requires x < 0x100_0000 && y < 0x100
    ensures Or24(x, y) as nat == x as nat + 0x100_0000 * (y as nat)
  {
    ShiftedByte(y);
    TopByte(x, y);
  }

  /** Four bytes, the first one lowest. */
  function Joined(b0: Raw, b1: Raw, b2: Raw, b3: Raw): Raw { Or24(Or16(Or8(b0, b1), b2), b3) }

  lemma JoinedValue(b0: Raw, b1: Raw, b2: Raw, b3: Raw)
    requires b0 < 0x100 && b1 < 0x100 && b2 < 0x100 && b3 < 0x100
    ensures Joined(b0, b1, b2, b3) as nat
            == b0 as nat + 0x100 * (b1 as nat) + 0x1_0000 * (b2 as nat) + 0x100_0000 * (b3 as nat)
  {
    hide Or8, Or16, Or24;
    Or8Value(b0, b1);
    Or16Value(Or8(b0, b1), b2);
    Or24Value(Or16(Or8(b0, b1), b2), b3);
  }

  /** Half a byte as a pattern, and a byte from its halves. */
  function Narrow(n: nat): bv4
    requires n < 16
  {
    n as bv4
  }

  function Widen(x: bv4): Raw { x as bv32 }
  function Or4(x: Raw, y: Raw): Raw { x | (y << 4) }
  function ByteRaw(b: Byte): Raw { Or4(Widen(Narrow(b % 16)), Widen(Narrow(b / 16))) }

  lemma NarrowValue(n: nat)
    requires n < 16
    ensures Narrow(n) as nat == n
  {
  }

  lemma WidenValue(x: bv4)
    ensures Widen(x) < 0x10 && Widen(x) as nat == x as nat
  {
  }

  lemma Or4Value(x: Raw, y: Raw)
    requires x < 0x10 && y < 0x10
    ensures Or4(x, y) < 0x100 && Or4(x, y) as nat == x as nat + 0x10 * (y as nat)
  {
    ShiftedHalf(y);
  }

  lemma ShiftedHalf(y: Raw)
    requires y < 0x10
    ensures (y << 4) as nat == 0x10 * (y as nat)
  {
  }

  lemma ByteValue(b: Byte)
    ensures ByteRaw(b) < 0x100 && ByteRaw(b) as nat == b
  {
    hide Narrow, Widen, Or4;
    NarrowValue(b % 16);
    NarrowValue(b / 16);
    WidenValue(Narrow(b % 16));
    WidenValue(Narrow(b / 16));
    Or4Value(Widen(Narrow(b % 16)), Widen(Narrow(b / 16)));
  }

  lemma WordBytes(a: Word)
    ensures a == a % 0x100 + 0x100 * (a / 0x100 % 0x100) + 0x1_0000 * (a / 0x1_0000 % 0x100)
                 + 0x100_0000 * (a / 0x100_0000)
  {
  }

  lemma SamePattern(r: Raw, a: Word)
    requires ToWord(r) == a
    ensures ToWord(ToRaw(a)) == a
  {
    assert (r as nat) as bv32 == r;
  }

  /** A word and its bit pattern: each conversion undoes the other. */
  lemma RawValue(a: Word)
    ensures ToWord(ToRaw(a)) == a
  {
    hide ByteRaw, Joined, ToRaw;
    var b0, b1, b2, b3 := a % 0x100, a / 0x100 % 0x100, a / 0x1_0000 % 0x100, a / 0x100_0000;
    ByteValue(b0); ByteValue(b1); ByteValue(b2); ByteValue(b3);
    JoinedValue(ByteRaw(b0), ByteRaw(b1), ByteRaw(b2), ByteRaw(b3));
    WordBytes(a);
    SamePattern(Joined(ByteRaw(b0), ByteRaw(b1), ByteRaw(b2), ByteRaw(b3)), a);
  }

  /** A register field names the register of its number. */
  lemma RegNumber(f: Raw)
    requires f < 32
    ensures RegOf(f) == f as nat
  {
  }

  // ---- Sign-extended fields ----

  /** Comparing patterns with a field's sign bit is comparing numbers. */
  lemma SignBits(f: Raw)
    ensures (f < 0x800) == (ToWord(f) < 0x800) && (f < 0x1000) == (ToWord(f) < 0x1000)
    ensures (f < 0x2000) == (ToWord(f) < 0x2000) && (f < 0x10_0000) == (ToWord(f) < 0x10_0000)
    ensures (f < 0x20_0000) == (ToWord(f) < 0x20_0000)
  {
  }

  /** A field whose sign bit is clear. */
  lemma Positive(f: Raw)
    ensures f < 0x800 ==> Sext(f, 0x800) == f
    ensures f < 0x1000 ==> Sext(f, 0x1000) == f
    ensures f < 0x10_0000 ==> Sext(f, 0x10_0000) == f
  {
  }

  lemma Negative12(f: Raw)
    requires 0x800 <= f < 0x1000
    ensures ToWord(Sext(f, 0x800)) == ToWord(f) + 0xffff_f000
  {
  }

  lemma Negative13(f: Raw)
    requires 0x1000 <= f < 0x2000
    ensures ToWord(Sext(f, 0x1000)) == ToWord(f) + 0xffff_e000
  {
  }

  /** The 20 bits below the sign bit of a 21-bit field, and what stands above them. */
  function Low20(f: Raw): Raw { f & 0xf_ffff }
  function WithSign(low: Raw): Raw { low | 0x10_0000 }
  function WithOnes(low: Raw): Raw { low | 0xfff0_0000 }

  lemma SplitSign(f: Raw)
    requires 0x10_0000 <= f < 0x20_0000
    ensures Low20(f) < 0x10_0000 && f == WithSign(Low20(f))
  {
  }

  lemma DropSign(f: Raw)
    requires 0x10_0000 <= f < 0x20_0000
    ensures f ^ 0x10_0000 == Low20(f)
  {
  }

  lemma Borrow(low: Raw)
    requires low < 0x10_0000
    ensures low - 0x10_0000 == WithOnes(low)
  {
  }

  lemma HighOnes(low: Raw)
    requires low < 0x10_0000
    ensures ToWord(WithOnes(low)) == ToWord(low) + 0xfff0_0000 && ToWord(WithSign(low)) == ToWord(low) + 0x10_0000
  {
    hide ToWord;
    OnesAbove(low);
  }

  lemma OnesAbove(x: Raw)
    requires x < 0x10_0000
    ensures ToWord(x | 0xfff0_0000) == ToWord(x) + 0xfff0_0000 && ToWord(x | 0x10_0000) == ToWord(x) + 0x10_0000
  {
  }

  lemma Negative21(f: Raw)
    requires 0x10_0000 <= f < 0x20_0000
    ensures ToWord(Sext(f, 0x10_0000)) == ToWord(f) + 0xffe0_0000
  {
    hide ToWord, Low20, WithSign, WithOnes;
    SplitSign(f);
    DropSign(f);
    Borrow(Low20(f));
    HighOnes(Low20(f));
  }

  /** A field of 12, 13 or 21 bits, sign extended, is the number in the field, less 2^12, 2^13 or 2^21 when
      the field's top bit is set. */
  lemma Sext12(f: Raw)
    requires f < 0x1000
    ensures f as nat < 0x1000
    ensures Signed(ToWord(Sext(f, 0x800))) == if f as nat >= 0x800 then f as nat - 0x1000 else f as nat
  {
    hide Sext;
    SignBits(f);
    if f < 0x800 { Positive(f); } else { Negative12(f); }
  }

  lemma Sext13(f: Raw)
    requires f < 0x2000
    ensures f as nat < 0x2000
    ensures Signed(ToWord(Sext(f, 0x1000))) == if f as nat >= 0x1000 then f as nat - 0x2000 else f as nat
  {
    hide Sext;
    SignBits(f);
    if f < 0x1000 { Positive(f); } else { Negative13(f); }
  }

  lemma Sext21(f: Raw)
    requires f < 0x20_0000
    ensures f as nat < 0x20_0000
    ensures Signed(ToWord(Sext(f, 0x10_0000))) == if f as nat >= 0x10_0000 then f as nat - 0x20_0000 else f as nat
  {
    hide Sext;
    SignBits(f);
    if f < 0x10_0000 { Positive(f); } else { Negative21(f); }
  }

  /** The value of each sign-extended immediate, from the number in its field. */
  lemma ImmediateValues(w: Raw)
    ensures var f := (w >> 20) as nat; Signed(ToWord(ImmI(w))) == if f >= 0x800 then f - 0x1000 else f
    ensures var f := FieldS(w) as nat; Signed(ToWord(ImmS(w))) == if f >= 0x800 then f - 0x1000 else f
    ensures var f := FieldB(w) as nat; Signed(ToWord(ImmB(w))) == if f >= 0x1000 then f - 0x2000 else f
    ensures var f := FieldJ(w) as nat; Signed(ToWord(ImmJ(w))) == if f >= 0x10_0000 then f - 0x20_0000 else f
  {
    hide Sext, FieldS, FieldB, FieldJ;
    FieldBounds(w);
    Sext12(w >> 20);
    Sext12(FieldS(w));
    Sext13(FieldB(w));
    Sext21(FieldJ(w));
  }

  lemma FieldBounds(w: Raw)
    ensures (w >> 20) < 0x1000 && FieldS(w) < 0x1000 && FieldB(w) < 0x2000 && FieldJ(w) < 0x20_0000
  {
  }

  // ---- Patterns that are sign extensions ----

  function Low12(imm: Raw): Raw { imm & 0xfff }

  predicate Extended12(imm: Raw) { Sext(Low12(imm), 0x800) == imm }

  function Low13(imm: Raw): Raw { imm & 0x1fff }

  predicate Extended13(imm: Raw) { Sext(Low13(imm), 0x1000) == imm }

  function Low21(imm: Raw): Raw { imm & 0x1f_ffff }

  predicate Extended21(imm: Raw) { Sext(Low21(imm), 0x10_0000) == imm }

  lemma LowFits(imm: Raw)
    ensures Low12(imm) < 0x1000 && Low13(imm) < 0x2000 && Low21(imm) < 0x20_0000
  {
  }

  /** Comparing patterns with the ends of a range is comparing numbers. */
  lemma RangeEnds(imm: Raw)
    ensures (imm >= 0xffff_f800) == (ToWord(imm) >= 0xffff_f800) && (imm >= 0xffff_f000) == (ToWord(imm) >= 0xffff_f000)
    ensures (imm >= 0xfff0_0000) == (ToWord(imm) >= 0xfff0_0000)
  {
  }

  lemma NearZero(imm: Raw)
    ensures imm < 0x800 || imm >= 0xffff_f800 ==> Extended12(imm)
    ensures imm < 0x1000 || imm >= 0xffff_f000 ==> Extended13(imm)
    ensures imm < 0x10_0000 || imm >= 0xfff0_0000 ==> Extended21(imm)
  {
  }

  lemma ExtendedIs12(imm: Raw)
    ensures Extended12(imm) == (-0x800 <= Signed(ToWord(imm)) < 0x800)
  {
    hide Sext, ToWord, Low12;
    LowFits(imm);
    Sext12(Low12(imm));
    RangeEnds(imm);
    SignBits(imm);
    NearZero(imm);
  }

  lemma ExtendedIs13(imm: Raw)
    ensures Extended13(imm) == (-0x1000 <= Signed(ToWord(imm)) < 0x1000)
  {
    hide Sext, ToWord, Low13;
    LowFits(imm);
    Sext13(Low13(imm));
    RangeEnds(imm);
    SignBits(imm);
    NearZero(imm);
  }

  lemma ExtendedIs21(imm: Raw)
    ensures Extended21(imm) == (-0x10_0000 <= Signed(ToWord(imm)) < 0x10_0000)
  {
    hide Sext, ToWord, Low21;
    LowFits(imm);
    Sext21(Low21(imm));
    RangeEnds(imm);
    SignBits(imm);
    NearZero(imm);
  }

  /** A pattern is its own low bits sign extended exactly when its value is in the range of the field. */
  lemma ExtendedIs(imm: Raw)
    ensures Extended12(imm) == (-0x800 <= Signed(ToWord(imm)) < 0x800)
    ensures Extended13(imm) == (-0x1000 <= Signed(ToWord(imm)) < 0x1000)
    ensures Extended21(imm) == (-0x10_0000 <= Signed(ToWord(imm)) < 0x10_0000)
  {
    hide Extended12, Extended13, Extended21, ToWord, Signed;
    ExtendedIs12(imm);
    ExtendedIs13(imm);
    ExtendedIs21(imm);
  }
}
