/**
 * Shared vocabulary of the SD host driver: the error taxonomy, result and
 * poll wrappers, card versions, bus widths and the numeric wire encodings
 * of the SD commands and application commands.
 */
module SdTypes {

  /** Size of one data block in bytes. */
  const BlockSize: nat := 0x200

  /** Every failure the driver reports. */
  datatype Error =
    | NoCard
    | Uninitialized
    | ReceiveOverrun
    | SendUnderrun
    | Timeout
    | CRCFail
    | OperatingConditionsNotSupported
    | UnexpectedResponse
    | UnknownResult
    | Busy
    | NoOperation
    | InvalidValue

  datatype Option<+T> = None | Some(value: T)

  datatype Result<+T> = Ok(value: T) | Err(error: Error)

  /** The outcome of one non-blocking poll: still running, or finished with a result. */
  datatype Poll<+T> = Pending | Done(result: T)

  /** A 136-bit response's 128-bit payload as four words, most significant word first. */
  type Words = w: seq<bv32> | |w| == 4 witness [0, 0, 0, 0]

  datatype CardVersion = V1SC | V2SC | V2HC

  datatype BusWidth = Bits1 | Bits4

  /** Argument of the SET_BUS_WIDTH application command for a bus width. */
  function BusWidthArg(w: BusWidth): (arg: bv32)
    ensures arg == 0 || arg == 2
    ensures arg == 2 <==> w == Bits4
  {
    match w
    case Bits1 => 0
    case Bits4 => 2
  }

  /** The SD commands the driver knows, each with a fixed command index. */
  datatype Command =
    | GoIdleState
    | AllSendCid
    | SendRelativeAddr
    | SelectCard
    | SendIfCond
    | SendCsd
    | SendCid
    | SendStatus
    | ReadBlock
    | ReadMultipleBlock
    | SetBlockCount
    | WriteBlock
    | WriteMultipleBlock
    | EraseWrBlkStart
    | EraseWrBlkEnd
    | Erase
    | AppCmd

  /** The application commands (sent after APP_CMD), each with a fixed command index. */
  datatype AppCommand =
    | SetBusWidth
    | SdStatus
    | SetWrBlkEraseCount
    | SdSendOpCond

  /** The command index that goes on the wire; it fits the 6-bit CMDINDEX field. */
  function CommandIndex(c: Command): (n: nat)
    ensures n < 64
  {
    match c
    case GoIdleState => 0
    case AllSendCid => 2
    case SendRelativeAddr => 3
    case SelectCard => 7
    case SendIfCond => 8
    case SendCsd => 9
    case SendCid => 10
    case SendStatus => 13
    case ReadBlock => 17
    case ReadMultipleBlock => 18
    case SetBlockCount => 23
    case WriteBlock => 24
    case WriteMultipleBlock => 25
    case EraseWrBlkStart => 32
    case EraseWrBlkEnd => 33
    case Erase => 38
    case AppCmd => 55
  }

  function AppCommandIndex(a: AppCommand): (n: nat)
    ensures n < 64
  {
    match a
    case SetBusWidth => 6
    case SdStatus => 13
    case SetWrBlkEraseCount => 23
    case SdSendOpCond => 41
  }

  /** Reads a command index back as a command; the inverse of CommandIndex. */
  function CommandOfIndex(n: nat): Option<Command>
  {
    match n
    case 0 => Some(GoIdleState)
    case 2 => Some(AllSendCid)
    case 3 => Some(SendRelativeAddr)
    case 7 => Some(SelectCard)
    case 8 => Some(SendIfCond)
    case 9 => Some(SendCsd)
    case 10 => Some(SendCid)
    case 13 => Some(SendStatus)
    case 17 => Some(ReadBlock)
    case 18 => Some(ReadMultipleBlock)
    case 23 => Some(SetBlockCount)
    case 24 => Some(WriteBlock)
    case 25 => Some(WriteMultipleBlock)
    case 32 => Some(EraseWrBlkStart)
    case 33 => Some(EraseWrBlkEnd)
    case 38 => Some(Erase)
    case 55 => Some(AppCmd)
    case _ => None
  }

  function AppCommandOfIndex(n: nat): Option<AppCommand>
  {
    match n
    case 6 => Some(SetBusWidth)
    case 13 => Some(SdStatus)
    case 23 => Some(SetWrBlkEraseCount)
    case 41 => Some(SdSendOpCond)
    case _ => None
  }

  /** The command encoding is a bijection between commands and their indices. */
  lemma CommandIndexRoundTrip(c: Command, n: nat)
    ensures CommandOfIndex(CommandIndex(c)) == Some(c)
    ensures CommandOfIndex(n) == Some(c) ==> CommandIndex(c) == n
  {
  }

  lemma AppCommandIndexRoundTrip(a: AppCommand, n: nat)
    ensures AppCommandOfIndex(AppCommandIndex(a)) == Some(a)
    ensures AppCommandOfIndex(n) == Some(a) ==> AppCommandIndex(a) == n
  {
  }

  /** Distinct commands never share an index. */
  lemma CommandIndexInjective(a: Command, b: Command)
    ensures CommandIndex(a) == CommandIndex(b) ==> a == b
  {
    CommandIndexRoundTrip(a, CommandIndex(b));
  }

  /** 2 to the power n. */
  function Pow2(n: nat): (r: nat)
    ensures r >= 1
  {
    if n == 0 then 1 else 2 * Pow2(n - 1)
  }

  /** Powers of two grow with the exponent. */
  lemma {:induction false} Pow2Monotone(a: nat, b: nat)
    requires a <= b
    ensures Pow2(a) <= Pow2(b)
    decreases b
  {
    if a < b {
      Pow2Monotone(a, b - 1);
    }
  }

  /** The unsigned 32-bit integers. */
  const U32Modulus: int := 0x1_0000_0000

  type U32 = x: int | 0 <= x < U32Modulus

  /** 32-bit addition, wrapping around past 2^32 - 1. */
  function AddU32(a: U32, b: U32): (r: U32)
    ensures a + b < U32Modulus ==> r == a + b
  {
    (a + b) % U32Modulus
  }

  /** A 32-bit left shift by fewer than 32 places: the bits shifted past bit 31 are lost. */
  function ShlU32(a: U32, k: nat): (r: U32)
    requires k < 32
    ensures a * Pow2(k) < U32Modulus ==> r == a * Pow2(k)
  {
    (a * Pow2(k)) % U32Modulus
  }
}
