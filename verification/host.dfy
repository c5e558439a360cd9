/**
 * The driver's own state: the host configuration, the operation in
 * progress, and what it has learnt about the card (relative address, CSD
 * and version). The peripheral handles themselves are not modelled.
 */
module Host {
  import opened SdTypes
  import opened CsdRegister

  /** The operation the host is in. */
  datatype State = Uninitialized | Ready | Reading | Writing

  /** Host configuration, fixed at construction. */
  datatype Config = Config(busWidth: BusWidth, clockDivider: bv8, dataTimeout: bv32)

  /** The mutable part of the device. */
  datatype Session = Session(state: State, rca: bv32, csd: Csd, version: CardVersion)

  /** The configuration a default-constructed host uses. */
  const DefaultConfig := Config(Bits1, 4, 0x100_0000)

  /**
   * The relative card address sits in the upper half of the word: it is
   * the upper half of the SEND_RELATIVE_ADDR response, and the driver sends
   * it, unshifted, as the argument of addressed commands.
   */
  predicate RcaAligned(s: Session)
  {
    s.rca & 0xffff == 0
  }

  /** A freshly constructed host: nothing known about any card. */
  function New(): (s: Session)
    ensures RcaAligned(s)
    ensures s.state == State.Uninitialized
  {
    Session(State.Uninitialized, 0, V1([0, 0, 0, 0]), V1SC)
  }

  /** Whether the host may start an operation. */
  function CheckReady(s: Session): (r: Result<()>)
    ensures r == Ok(()) <==> s.state == Ready
    ensures r == Err(Error.Uninitialized) <==> s.state == State.Uninitialized
    ensures r == Err(Busy) <==> s.state == Reading || s.state == Writing
  {
    match s.state
    case Uninitialized => Err(Error.Uninitialized)
    case Ready => Ok(())
    case Reading => Err(Busy)
    case Writing => Err(Busy)
  }

  /**
   * Handing back the peripherals. The driver refuses (panics) while a
   * transfer is in progress; the result says whether it hands them back.
   */
  function Free(s: Session): (released: bool)
    ensures released <==> CheckReady(s) != Err(Busy)
  {
    match s.state
    case Uninitialized => true
    case Ready => true
    case Reading => false
    case Writing => false
  }

  /** The card's capacity in blocks, known once the card is initialised. */
  function CardSize(s: Session): (r: Result<U32>)
    ensures r.Err? <==> CheckReady(s) == Err(Error.Uninitialized)
    ensures r.Err? ==> r.error == Error.Uninitialized
    ensures r.Ok? ==> r.value == Capacity(s.csd)
  {
    match s.state
    case Uninitialized => Err(Error.Uninitialized)
    case _ => Ok(Capacity(s.csd))
  }

  /**
   * Every reported card size is at least four blocks and at most 2^26
   * blocks (32 GiB): the 32-bit computation never wraps.
   */
  lemma CardSizeRange(s: Session)
    requires CardSize(s).Ok?
    ensures 4 <= CardSize(s).value <= 0x400_0000
  {
    match s.csd
    case V1(w) =>
      CapacityV1Exact(w);
    case V2(w) =>
      CapacityV2Range(w);
  }

  /** How the SDMMC clock is derived from the configuration. */
  datatype ClockMode = Bypass | Divide(clkdiv: bv8)

  /**
   * A divider of zero or one bypasses the clock divider; otherwise CLKDIV
   * is the divider minus two, so the card clock is the input over the divider.
   */
  function ClockModeOf(cfg: Config): (m: ClockMode)
    ensures m == Bypass <==> cfg.clockDivider < 2
    ensures m.Divide? ==> m.clkdiv + 2 == cfg.clockDivider && m.clkdiv < cfg.clockDivider
  {
    if cfg.clockDivider < 2 then Bypass else Divide(cfg.clockDivider - 2)
  }

  /** The WIDBUS field of the clock control register for a bus width. */
  function WidBus(w: BusWidth): (v: bv32)
    ensures v < 2
    ensures v << 1 == BusWidthArg(w)
  {
    match w
    case Bits1 => 0
    case Bits4 => 1
  }
}
