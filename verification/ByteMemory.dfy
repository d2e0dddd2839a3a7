/** The data path of src/memory/flat_mem.cpp: little-endian bytes.  A byte never written reads 0. */
module ByteMemory {
  import opened Words

  type Bytes = map<Word, Byte>

  function LoadByte(m: Bytes, a: Word): Byte { if a in m then m[a] else 0 }

  function LoadHalf(m: Bytes, a: Word): (v: nat)
    ensures v < 0x1_0000
  {
    LoadByte(m, a) + 0x100 * LoadByte(m, Add(a, 1))
  }

  function LoadWord(m: Bytes, a: Word): Word {
    LoadByte(m, a) + 0x100 * LoadByte(m, Add(a, 1)) + 0x1_0000 * LoadByte(m, Add(a, 2))
    + 0x100_0000 * LoadByte(m, Add(a, 3))
  }

  function StoreByte(m: Bytes, a: Word, v: Word): Bytes { m[a := v % 0x100] }

  function StoreHalf(m: Bytes, a: Word, v: Word): Bytes {
    m[a := v % 0x100][Add(a, 1) := v / 0x100 % 0x100]
  }

  function StoreWord(m: Bytes, a: Word, v: Word): Bytes {
    m[a := v % 0x100][Add(a, 1) := v / 0x100 % 0x100][Add(a, 2) := v / 0x1_0000 % 0x100]
     [Add(a, 3) := v / 0x100_0000 % 0x100]
  }

  // ---- What is stored reads back, little-endian, and nothing else changes ----

  lemma StoreThenLoadByte(m: Bytes, a: Word, v: Word)
    ensures LoadByte(StoreByte(m, a, v), a) == v % 0x100
  {
  }

  lemma StoreByteFrame(m: Bytes, a: Word, v: Word, b: Word)
    requires b != a
    ensures LoadByte(StoreByte(m, a, v), b) == LoadByte(m, b)
  {
  }

  /** Half words and words are stored as two and four bytes at consecutive addresses, the lowest first. */
  lemma LittleEndian(m: Bytes, a: Word, v: Word)
    ensures var b1 := (a + 1) % 0x1_0000_0000;
      LoadByte(StoreHalf(m, a, v), a) == v % 0x100 && LoadByte(StoreHalf(m, a, v), b1) == v / 0x100 % 0x100
    ensures var b1, b2, b3 := (a + 1) % 0x1_0000_0000, (a + 2) % 0x1_0000_0000, (a + 3) % 0x1_0000_0000;
      && LoadByte(StoreWord(m, a, v), a) == v % 0x100 && LoadByte(StoreWord(m, a, v), b1) == v / 0x100 % 0x100
      && LoadByte(StoreWord(m, a, v), b2) == v / 0x1_0000 % 0x100
      && LoadByte(StoreWord(m, a, v), b3) == v / 0x100_0000 % 0x100
  {
    Apart(a);
  }

  lemma StoreHalfFrame(m: Bytes, a: Word, v: Word, b: Word)
    requires b != a && b != Add(a, 1)
    ensures LoadByte(StoreHalf(m, a, v), b) == LoadByte(m, b)
  {
    hide Add;
  }

  lemma StoreThenLoadHalf(m: Bytes, a: Word, v: Word)
    requires v < 0x1_0000
    ensures LoadHalf(StoreHalf(m, a, v), a) == v
  {
    assert a != Add(a, 1);
  }

  lemma Digits(v: Word)
    ensures v % 0x100 + 0x100 * (v / 0x100 % 0x100) + 0x1_0000 * (v / 0x1_0000 % 0x100)
            + 0x100_0000 * (v / 0x100_0000 % 0x100) == v
  {
  }

  /** The four bytes of a word are at four different addresses, even where they wrap around. */
  lemma Apart(a: Word)
    ensures a != Add(a, 1) && a != Add(a, 2) && a != Add(a, 3)
    ensures Add(a, 1) != Add(a, 2) && Add(a, 1) != Add(a, 3) && Add(a, 2) != Add(a, 3)
  {
  }

  lemma StoreThenLoadWord(m: Bytes, a: Word, v: Word)
    ensures LoadWord(StoreWord(m, a, v), a) == v
  {
    hide Add;
    Apart(a);
    Digits(v);
  }

  lemma StoreWordFrame(m: Bytes, a: Word, v: Word, b: Word)
    requires b != a && b != Add(a, 1) && b != Add(a, 2) && b != Add(a, 3)
    ensures LoadByte(StoreWord(m, a, v), b) == LoadByte(m, b)
  {
    hide Add;
  }

  /** A word store changes no word that is at least four bytes away, both ways around the address space. */
  lemma StoreWordApart(m: Bytes, a: Word, v: Word, b: Word)
    requires 4 <= (b - a) % 0x1_0000_0000 <= 0xffff_fffc
    ensures LoadWord(StoreWord(m, a, v), b) == LoadWord(m, b)
  {
    hide Add, LoadByte, StoreWord;
    FourApart(a, b, 0); FourApart(a, b, 1); FourApart(a, b, 2); FourApart(a, b, 3);
    StoreWordFrame(m, a, v, b);
    StoreWordFrame(m, a, v, Add(b, 1));
    StoreWordFrame(m, a, v, Add(b, 2));
    StoreWordFrame(m, a, v, Add(b, 3));
  }

  lemma Distinct(a: Word, x: Word, y: Word)
    requires x != y
    ensures Add(a, x) != Add(a, y)
  {
  }

  lemma Rebase(a: Word, b: Word, i: Word)
    requires (b - a) % 0x1_0000_0000 + i < 0x1_0000_0000
    ensures Add(b, i) == Add(a, (b - a) % 0x1_0000_0000 + i) && Add(b, 0) == b
  {
  }

  lemma FourApart(a: Word, b: Word, i: Word)
    requires 4 <= (b - a) % 0x1_0000_0000 <= 0xffff_fffc && i < 4
    ensures var c := Add(b, i);
      c != a && c != Add(a, 1) && c != Add(a, 2) && c != Add(a, 3) && (i == 0 ==> c == b)
  {
    var d := (b - a) % 0x1_0000_0000 + i;
    Rebase(a, b, i);
    assert Add(a, 0) == a;
    hide Add;
    Distinct(a, d, 0); Distinct(a, d, 1); Distinct(a, d, 2); Distinct(a, d, 3);
  }
}
