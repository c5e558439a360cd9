/**
 * The 64-byte SD Status register, decoded field by field. Byte 0 is the
 * first byte the card sends (bits 511..504 of the register). Invalid
 * encodings decode to InvalidValue rather than failing.
 */
module SdStatusRegister {
  import opened SdTypes

  /** The raw register: exactly 64 bytes. */
  type StatusBytes = s: seq<bv8> | |s| == 64 witness seq(64, _ => 0 as bv8)

  /** The 4-bit AU_SIZE code, the high nibble of byte 0x0a. */
  function AuSizeCode(st: StatusBytes): (c: nat)
    ensures c < 16
  {
    (st[0x0a] >> 4) as nat
  }

  /** The 2-bit DAT_BUS_WIDTH field, the top two bits of byte 0. */
  function BusWidthField(st: StatusBytes): (f: nat)
    ensures f < 4
  {
    (st[0x00] >> 6) as nat
  }

  /** A 16-bit value sent high byte first. */
  function BigEndian16(hi: bv8, lo: bv8): (r: nat)
    ensures r < 0x1_0000
    ensures r == hi as nat * 256 + lo as nat
  {
    ((lo as bv32) | ((hi as bv32) << 8)) as nat
  }

  function DataBusWidth(st: StatusBytes): (r: Result<BusWidth>)
    ensures r == Ok(Bits1) <==> BusWidthField(st) == 0
    ensures r == Ok(Bits4) <==> BusWidthField(st) == 2
    ensures r == Err(InvalidValue) <==> BusWidthField(st) in {1, 3}
  {
    match BusWidthField(st)
    case 0 => Ok(Bits1)
    case 2 => Ok(Bits4)
    case _ => Err(InvalidValue)
  }

  /** The size of an allocation unit in bytes. */
  function AuSize(st: StatusBytes): (r: Result<nat>)
    ensures r.Err? <==> AuSizeCode(st) == 0
    ensures r.Err? ==> r.error == InvalidValue
    ensures r.Ok? ==> 16 * 1024 <= r.value <= 64 * 1024 * 1024
    ensures r.Ok? ==> r.value % (16 * 1024) == 0
    ensures AuSizeCode(st) == 0xf ==> r == Ok(64 * 1024 * 1024)
  {
    match AuSizeCode(st)
    case 0x1 => Ok(16 * 1024)
    case 0x2 => Ok(32 * 1024)
    case 0x3 => Ok(64 * 1024)
    case 0x4 => Ok(128 * 1024)
    case 0x5 => Ok(256 * 1024)
    case 0x6 => Ok(512 * 1024)
    case 0x7 => Ok(1024 * 1024)
    case 0x8 => Ok(2 * 1024 * 1024)
    case 0x9 => Ok(4 * 1024 * 1024)
    case 0xa => Ok(8 * 1024 * 1024)
    case 0xb => Ok(12 * 1024 * 1024)
    case 0xc => Ok(16 * 1024 * 1024)
    case 0xd => Ok(24 * 1024 * 1024)
    case 0xe => Ok(32 * 1024 * 1024)
    case 0xf => Ok(64 * 1024 * 1024)
    case _ => Err(InvalidValue)
  }

  /** SD_CARD_TYPE, bytes 0x02 (high) and 0x03 (low). */
  function SdCardType(st: StatusBytes): (r: nat)
    ensures r < 0x1_0000
    ensures r == st[0x02] as nat * 256 + st[0x03] as nat
  {
    BigEndian16(st[0x02], st[0x03])
  }

  /** ERASE_SIZE, the number of allocation units erased at a time: bytes 0x0b (high) and 0x0c (low). */
  function EraseSize(st: StatusBytes): (r: nat)
    ensures r < 0x1_0000
    ensures r == st[0x0b] as nat * 256 + st[0x0c] as nat
  {
    BigEndian16(st[0x0b], st[0x0c])
  }

  /** ERASE_TIMEOUT in seconds: the top six bits of byte 0x0d. */
  function EraseTimeout(st: StatusBytes): (r: nat)
    ensures r <= 63
    ensures 4 * r <= st[0x0d] as nat < 4 * r + 4
  {
    (st[0x0d] >> 2) as nat
  }

  /** DISCARD_SUPPORT: bit 1 of byte 0x18. */
  function DiscardSupport(st: StatusBytes): (r: bool)
    ensures r <==> (st[0x18] as nat / 2) % 2 == 1
  {
    ByteBit1(st[0x18]);
    (st[0x18] >> 1) & 1 != 0
  }

  /** FULE_SUPPORT: bit 0 of byte 0x18. */
  function FuleSupport(st: StatusBytes): (r: bool)
    ensures r <==> st[0x18] as nat % 2 == 1
  {
    ByteBit0(st[0x18]);
    st[0x18] & 1 != 0
  }

  /** Bit 1 of a byte is the second binary digit of its value. */
  lemma ByteBit1(b: bv8)
    ensures (b >> 1) & 1 != 0 <==> (b as nat / 2) % 2 == 1
  {
    ShiftRight1(b);
    ByteBit0(b >> 1);
  }

  /** Shifting a byte right by one halves its value. */
  lemma ShiftRight1(b: bv8)
    ensures (b >> 1) as nat == b as nat / 2
  {
  }

  /** Bit 0 of a byte is its value's parity. */
  lemma ByteBit0(b: bv8)
    ensures b & 1 != 0 <==> b as nat % 2 == 1
  {
  }

  /** The allocation unit grows strictly with its code. */
  lemma AuSizeStrictlyIncreasing(a: StatusBytes, b: StatusBytes)
    requires 0 < AuSizeCode(a) < AuSizeCode(b)
    ensures AuSize(a).Ok? && AuSize(b).Ok?
    ensures AuSize(a).value < AuSize(b).value
  {
  }

  /** Codes 1 to 0xa double the allocation unit each step, starting from 16 KiB. */
  lemma {:induction false} AuSizeDoubles(st: StatusBytes)
    requires 1 <= AuSizeCode(st) <= 0xa
    ensures AuSize(st) == Ok(16 * 1024 * Pow2(AuSizeCode(st) - 1))
  {
    var c := AuSizeCode(st);
    assert Pow2(0) == 1;
    assert Pow2(1) == 2;
    assert Pow2(2) == 4;
    assert Pow2(3) == 8;
    assert Pow2(4) == 16;
    assert Pow2(5) == 32;
    assert Pow2(6) == 64;
    assert Pow2(7) == 128;
    assert Pow2(8) == 256;
    assert Pow2(9) == 512;
  }

  /**
   * The bus width the driver selects with SET_BUS_WIDTH, reported back in
   * DAT_BUS_WIDTH, decodes to the same width: both use the same code.
   */
  lemma DataBusWidthRoundTrip(st: StatusBytes, w: BusWidth)
    requires st[0x00] >> 6 == BusWidthArg(w) as bv8
    ensures DataBusWidth(st) == Ok(w)
  {
  }
}
