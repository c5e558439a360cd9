/**
 * The Card-Specific Data register and the card capacity it encodes, after
 * section 5.3 of the SD Physical Layer Simplified Specification. The
 * register arrives as four words, the first holding bits 127..96. The
 * fields are cut out of the words with bit-vector operations, as the driver
 * does; the capacity arithmetic on them is 32-bit unsigned arithmetic,
 * written over the integers with its wrap-around spelled out.
 */
module CsdRegister {
  import opened SdTypes

  /** A CSD, tagged with the layout the driver decided the card uses. */
  datatype Csd = V1(words: Words) | V2(words: Words)

  /** The four words as one 128-bit register. */
  function Register(w: Words): bv128
  {
    ((w[0] as bv128) << 96) | ((w[1] as bv128) << 64) | ((w[2] as bv128) << 32) | (w[3] as bv128)
  }

  /** C_SIZE of the version 1.0 layout, as the driver gathers it from two words; twelve bits. */
  function CSizeV1(w: Words): (c: bv32)
    ensures c < 0x1000
  {
    (w[2] >> 30) | ((w[1] & 0x3ff) << 2)
  }

  /** C_SIZE_MULT of the version 1.0 layout, as the driver reads it; three bits. */
  function CSizeMultV1(w: Words): (m: bv32)
    ensures m < 8
  {
    (w[2] & 0x0003_8000) >> 15
  }

  /** The part of the version 2.0 C_SIZE the driver reads: the high half of the third word. */
  function CSizeV2Low(w: Words): (c: bv32)
    ensures c < 0x1_0000
  {
    w[2] >> 16
  }

  /**
   * The capacity in blocks: (C_SIZE + 1) << (C_SIZE_MULT + 2) for version
   * 1.0 and (C_SIZE + 1) << 10 for version 2.0, in 32-bit arithmetic.
   */
  function Capacity(csd: Csd): U32
  {
    match csd
    case V1(w) =>
      var cSize := AddU32(CSizeV1(w) as int, 1);
      var cSizeMult := CSizeMultV1(w) as int + 2;
      ShlU32(cSize, cSizeMult)
    case V2(w) =>
      var cSize := AddU32(CSizeV2Low(w) as int, 1);
      ShlU32(cSize, 10)
  }

  /**
   * The version 1.0 fields sit where the SD layout puts them: C_SIZE in
   * register bits 73..62 and C_SIZE_MULT in bits 49..47.
   */
  lemma V1FieldLayout(w: Words)
    ensures CSizeV1(w) == ((Register(w) >> 62) & 0xfff) as bv32
    ensures CSizeMultV1(w) == ((Register(w) >> 47) & 0x7) as bv32
  {
  }

  /**
   * The version 2.0 C_SIZE is register bits 69..48, 22 bits wide; the driver
   * reads only its low 16 bits (bits 63..48) and ignores the top six.
   */
  lemma V2FieldLayout(w: Words)
    ensures CSizeV2Low(w) == ((Register(w) >> 48) & 0xffff) as bv32
    ensures CSizeV2Low(w) == ((Register(w) >> 48) & 0x3f_ffff) as bv32 & 0xffff
  {
  }

  /** Widening a bit-vector keeps its value. */
  lemma Widen12(x: bv12)
    ensures (x as bv32) as int == x as int
  {
  }

  lemma Widen16(x: bv16)
    ensures (x as bv32) as int == x as int
  {
  }

  /** A field that fits a narrower bit-vector has a value below that width's range. */
  lemma Below4096(x: bv32)
    requires x < 0x1000
    ensures x as int < 0x1000
  {
    assert (x as bv12) as bv32 == x;
    Widen12(x as bv12);
  }

  lemma Below65536(x: bv32)
    requires x < 0x1_0000
    ensures x as int < 0x1_0000
  {
    assert (x as bv16) as bv32 == x;
    Widen16(x as bv16);
  }

  lemma Below8(x: bv32)
    requires x < 8
    ensures x as int < 8
  {
  }

  lemma ProductBounds(x: int, xlo: int, xhi: int, p: int, plo: int, phi: int)
    requires 0 <= xlo <= x <= xhi && 0 <= plo <= p <= phi
    ensures xlo * plo <= x * p <= xhi * phi
  {
  }

  /** The version 1.0 arithmetic on field values: neither the add nor the shift wraps. */
  lemma ScaledV1(c: int, m: int)
    requires 0 <= c < 0x1000 && 0 <= m < 8
    ensures AddU32(c, 1) == c + 1
    ensures ShlU32(c + 1, m + 2) == (c + 1) * Pow2(m + 2)
    ensures 4 <= (c + 1) * Pow2(m + 2) <= 0x20_0000
  {
    Pow2Monotone(2, m + 2);
    Pow2Monotone(m + 2, 9);
    assert Pow2(2) == 4;
    assert Pow2(9) == 512;
    ProductBounds(c + 1, 1, 0x1000, Pow2(m + 2), 4, 512);
  }

  /**
   * A version 1.0 capacity is exactly (C_SIZE + 1) * 2^(C_SIZE_MULT + 2)
   * blocks, between 4 and 2^21: the 32-bit computation never wraps.
   */
  lemma CapacityV1Exact(w: Words)
    ensures Capacity(V1(w)) == (CSizeV1(w) as int + 1) * Pow2(CSizeMultV1(w) as int + 2)
    ensures 4 <= Capacity(V1(w)) <= 0x20_0000
  {
    Below4096(CSizeV1(w));
    Below8(CSizeMultV1(w));
    ScaledV1(CSizeV1(w) as int, CSizeMultV1(w) as int);
  }

  /** The version 2.0 arithmetic on field values: neither the add nor the shift wraps. */
  lemma ScaledV2(c: int)
    requires 0 <= c < 0x1_0000
    ensures AddU32(c, 1) == c + 1
    ensures ShlU32(c + 1, 10) == (c + 1) * 1024
    ensures 0x400 <= (c + 1) * 1024 <= 0x400_0000
    ensures ((c + 1) * 1024) % 1024 == 0
  {
    assert Pow2(10) == 1024;
  }

  /** A version 2.0 capacity is exactly (C_SIZE + 1) * 1024 blocks over the bits the driver reads. */
  lemma CapacityV2Exact(w: Words)
    ensures Capacity(V2(w)) == (CSizeV2Low(w) as int + 1) * 1024
  {
    Below65536(CSizeV2Low(w));
    ScaledV2(CSizeV2Low(w) as int);
  }

  /** A version 2.0 capacity is a whole number of 512 KiB units, between 2^10 and 2^26 blocks. */
  lemma CapacityV2Range(w: Words)
    ensures 0x400 <= Capacity(V2(w)) <= 0x400_0000
    ensures Capacity(V2(w)) % 1024 == 0
  {
    CapacityV2Exact(w);
    Below65536(CSizeV2Low(w));
    ScaledV2(CSizeV2Low(w) as int);
  }
}
