/** Bytes, 32-bit words and their two byte orders. */
module Words {
  type Byte = bv8
  type Word = bv32

  /** Four bytes: one column of the AES state, or one word of a key schedule. */
  datatype Column = Column(r0: Byte, r1: Byte, r2: Byte, r3: Byte)

  function XorByte(a: Byte, b: Byte): Byte {
    a ^ b
  }

  function Xor(x: Column, y: Column): Column {
    Column(XorByte(x.r0, y.r0), XorByte(x.r1, y.r1), XorByte(x.r2, y.r2), XorByte(x.r3, y.r3))
  }

  function RotateUp(c: Column): Column {
    Column(c.r1, c.r2, c.r3, c.r0)
  }

  function Low(w: Word): Byte {
    (w & 0xff) as Byte
  }

  function Join(b3: Byte, b2: Byte, b1: Byte, b0: Byte): Word {
    ((b3 as Word) << 24) | ((b2 as Word) << 16) | ((b1 as Word) << 8) | (b0 as Word)
  }

  /** The bytes of a native word in memory order, on a little-endian machine. */
  function Lanes(w: Word): Column {
    Column(Low(w), Low(w >> 8), Low(w >> 16), Low(w >> 24))
  }

  /** The bytes that the PUTU32 macro stores. */
  function BigEndian(w: Word): Column {
    Column(Low(w >> 24), Low(w >> 16), Low(w >> 8), Low(w))
  }

  /** The two byte orders on one word. */
  lemma ByteOrders()
    ensures Join(0x12, 0x34, 0x56, 0x78) == 0x1234_5678
    ensures Lanes(0x1234_5678) == Column(0x78, 0x56, 0x34, 0x12)
    ensures BigEndian(0x1234_5678) == Column(0x12, 0x34, 0x56, 0x78)
  {
  }

  lemma LanesJoin(b3: Byte, b2: Byte, b1: Byte, b0: Byte)
    ensures Lanes(Join(b3, b2, b1, b0)) == Column(b0, b1, b2, b3)
  {
  }

  lemma LanesXor(x: Word, y: Word)
    ensures Lanes(x ^ y) == Xor(Lanes(x), Lanes(y))
  {
  }

  lemma BigEndianXor(x: Word, y: Word)
    ensures BigEndian(x ^ y) == Xor(BigEndian(x), BigEndian(y))
  {
    LanesXor(x, y);
  }
}
