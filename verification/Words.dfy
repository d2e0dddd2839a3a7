/** Machine words.  Register values, addresses and data are unsigned 32-bit numbers; arithmetic
    wraps modulo 2^32 as uint32_t does.  Instruction encodings are bit-vectors (Raw), because the
    decoder slices bits. */
module Words {
  type Word = w: nat | w < 0x1_0000_0000
  type Byte = b: nat | b < 256
  type Reg = r: nat | r < 32
  type Raw = bv32

  datatype Option<+T> = None | Some(value: T)

  function Add(a: Word, b: Word): Word {
    (a + b) % 0x1_0000_0000
  }

  function Sub(a: Word, b: Word): Word {
    (a - b) % 0x1_0000_0000
  }

  /** The value of a word read as int32_t. */
  function Signed(a: Word): int {
    if a < 0x8000_0000 then a else a - 0x1_0000_0000
  }

  /** The word that holds an int32_t value (conversion back to uint32_t wraps). */
  function Unsigned(x: int): Word {
    x % 0x1_0000_0000
  }

  function Pow2(n: nat): nat
    ensures Pow2(n) > 0
  {
    if n == 0 then 1 else 2 * Pow2(n - 1)
  }

  /** The unsigned value of a bit pattern. */
  function ToWord(w: Raw): Word { w as nat }

  function ToRaw(a: Word): Raw { a as bv32 }

  /** Two words combined bit by bit. */
  function Bitwise(f: (bool, bool) -> bool, a: nat, b: nat, bits: nat): (r: nat)
    ensures r < Pow2(bits)
  {
    if bits == 0 then 0
    else (if f(a % 2 == 1, b % 2 == 1) then 1 else 0) + 2 * Bitwise(f, a / 2, b / 2, bits - 1)
  }

  lemma Pow2Of32()
    ensures Pow2(32) == 0x1_0000_0000
  {
    assert Pow2(8) == 0x100 by { assert Pow2(4) == 16; }
    assert Pow2(12) == 0x1000;
    assert Pow2(16) == 0x1_0000;
    assert Pow2(20) == 0x10_0000;
    assert Pow2(24) == 0x100_0000;
    assert Pow2(28) == 0x1000_0000;
  }

  function BitAnd(a: Word, b: Word): Word {
    Pow2Of32();
    Bitwise((x, y) => x && y, a, b, 32)
  }

  function BitOr(a: Word, b: Word): Word {
    Pow2Of32();
    Bitwise((x, y) => x || y, a, b, 32)
  }

  function BitXor(a: Word, b: Word): Word {
    Pow2Of32();
    Bitwise((x, y) => x != y, a, b, 32)
  }

  /** Number of elements of a sequence of flags that are set. */
  function Count(s: seq<bool>): nat {
    if |s| == 0 then 0 else Count(s[..|s| - 1]) + (if s[|s| - 1] then 1 else 0)
  }
}
