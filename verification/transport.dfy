/**
 * The command path of the SDMMC host: the frames the driver writes to the
 * argument and command registers, and how it reads one poll of the status
 * register (and the response registers) back as the outcome of a command.
 * A poll that still shows the command active is Pending; the driver keeps
 * polling until it is not.
 */
module Transport {
  import opened SdTypes

  /** The check argument of SEND_IF_COND: voltage range 2.7-3.6 V and check pattern 0xaa. */
  const SendIfCondPattern: bv32 := 0x0000_01aa

  /** The static flags of the status register the driver looks at. */
  datatype Status = Status(
    cmdact: bool,
    ccrcfail: bool,
    ctimeout: bool,
    cmdrend: bool,
    cmdsent: bool,
    rxact: bool,
    txact: bool,
    dcrcfail: bool,
    dtimeout: bool,
    rxoverr: bool,
    txunderr: bool,
    dataend: bool,
    dbckend: bool)

  /**
   * One poll of the host: the status flags, the command index the card
   * echoed (RESPCMD) and the four response words (RESP1 to RESP4).
   */
  datatype Reply = Reply(status: Status, respcmd: nat, resp: Words)

  /** What the command path waits for after sending a command. */
  datatype ResponseKind = NoResponse | ShortResponse | LongResponse

  datatype Opcode = Cmd(command: Command) | ACmd(app: AppCommand)

  /** One command as written to the argument and command registers. */
  datatype Frame = Frame(opcode: Opcode, arg: bv32, response: ResponseKind)

  /** The WAITRESP field of the command register for a response kind. */
  function WaitResp(k: ResponseKind): (v: nat)
    ensures v < 4 && v != 2
    ensures v == 0 <==> k == NoResponse
    ensures v == 3 <==> k == LongResponse
  {
    match k
    case NoResponse => 0
    case ShortResponse => 1
    case LongResponse => 3
  }

  /**
   * One poll of a command in flight. A still-active command is Pending;
   * otherwise a CRC failure wins over a timeout, which wins over a missing
   * completion flag (CMDREND when a response is expected, CMDSENT when not).
   */
  function CheckCommand(st: Status, expectResponse: bool): (r: Poll<Result<()>>)
    ensures r == Pending <==> st.cmdact
    ensures r == Done(Err(CRCFail)) <==> !st.cmdact && st.ccrcfail
    ensures r == Done(Err(Timeout)) <==> !st.cmdact && !st.ccrcfail && st.ctimeout
    ensures r == Done(Err(UnknownResult)) <==>
      !st.cmdact && !st.ccrcfail && !st.ctimeout &&
      (if expectResponse then !st.cmdrend else !st.cmdsent)
    ensures r == Done(Ok(())) <==>
      !st.cmdact && !st.ccrcfail && !st.ctimeout &&
      (if expectResponse then st.cmdrend else st.cmdsent)
  {
    if st.cmdact then Pending
    else if st.ccrcfail then Done(Err(CRCFail))
    else if st.ctimeout then Done(Err(Timeout))
    else if expectResponse && !st.cmdrend then Done(Err(UnknownResult))
    else if !expectResponse && !st.cmdsent then Done(Err(UnknownResult))
    else Done(Ok(()))
  }

  /** The command flags the command path reads. */
  predicate SameCommandFlags(a: Status, b: Status)
  {
    a.cmdact == b.cmdact && a.ccrcfail == b.ccrcfail && a.ctimeout == b.ctimeout &&
    a.cmdrend == b.cmdrend && a.cmdsent == b.cmdsent
  }

  /** A poll that has finished with an error. */
  predicate Failed<T>(x: Poll<Result<T>>)
  {
    x.Done? && x.result.Err?
  }

  /** The data-path flags never influence the outcome of a command. */
  lemma CheckCommandIgnoresDataFlags(a: Status, b: Status, expectResponse: bool)
    requires SameCommandFlags(a, b)
    ensures CheckCommand(a, expectResponse) == CheckCommand(b, expectResponse)
  {
  }

  /**
   * A command with a short response: besides a clean status, the card must
   * echo the command's index, or the response belongs to something else.
   */
  function CompleteShort(cmd: Command, reply: Reply): (r: Poll<Result<bv32>>)
    ensures r == Pending <==> reply.status.cmdact
    ensures r == Done(Ok(reply.resp[0])) <==>
      CheckCommand(reply.status, true) == Done(Ok(())) && reply.respcmd == CommandIndex(cmd)
    ensures r == Done(Err(UnexpectedResponse)) <==>
      CheckCommand(reply.status, true) == Done(Ok(())) && reply.respcmd != CommandIndex(cmd)
    ensures Failed(CheckCommand(reply.status, true)) ==> r == Done(Err(CheckCommand(reply.status, true).result.error))
    ensures r.Done? && r.result.Ok? ==> r.result.value == reply.resp[0]
  {
    match CheckCommand(reply.status, true)
    case Pending => Pending
    case Done(Err(e)) => Done(Err(e))
    case Done(Ok(_)) =>
      if reply.respcmd != CommandIndex(cmd) then Done(Err(UnexpectedResponse))
      else Done(Ok(reply.resp[0]))
  }

  /** A command with a long (136-bit) response; the index is not checked. */
  function CompleteLong(reply: Reply): (r: Poll<Result<Words>>)
    ensures r == Pending <==> reply.status.cmdact
    ensures r == Done(Ok(reply.resp)) <==> CheckCommand(reply.status, true) == Done(Ok(()))
    ensures Failed(r) <==> Failed(CheckCommand(reply.status, true))
    ensures Failed(r) ==> r.result.error == CheckCommand(reply.status, true).result.error
  {
    match CheckCommand(reply.status, true)
    case Pending => Pending
    case Done(Err(e)) => Done(Err(e))
    case Done(Ok(_)) => Done(Ok(reply.resp))
  }

  /** An application command with a short response; the index is not checked. */
  function CompleteApp(reply: Reply): (r: Poll<Result<bv32>>)
    ensures r == Pending <==> reply.status.cmdact
    ensures r == Done(Ok(reply.resp[0])) <==> CheckCommand(reply.status, true) == Done(Ok(()))
    ensures Failed(r) <==> Failed(CheckCommand(reply.status, true))
    ensures Failed(r) ==> r.result.error == CheckCommand(reply.status, true).result.error
  {
    match CheckCommand(reply.status, true)
    case Pending => Pending
    case Done(Err(e)) => Done(Err(e))
    case Done(Ok(_)) => Done(Ok(reply.resp[0]))
  }

  /**
   * SD_SEND_OP_COND: the card answers with an R3 response, which carries no
   * valid CRC, so a CRC failure is the normal case and counts as success.
   */
  function CompleteOpCond(reply: Reply): (r: Poll<Result<bv32>>)
    ensures r == Done(Ok(reply.resp[0])) <==>
      CompleteApp(reply) == Done(Ok(reply.resp[0])) || CompleteApp(reply) == Done(Err(CRCFail))
    ensures CompleteApp(reply) != Done(Err(CRCFail)) ==> r == CompleteApp(reply)
    ensures r != Done(Err(CRCFail))
  {
    match CheckCommand(reply.status, true)
    case Pending => Pending
    case Done(Err(CRCFail)) => Done(Ok(reply.resp[0]))
    case Done(Err(e)) => Done(Err(e))
    case Done(Ok(_)) => Done(Ok(reply.resp[0]))
  }

  /**
   * SEND_IF_COND: the card must echo the check pattern; a card that answers
   * with anything else does not support the host's voltage range.
   */
  function CheckOperatingConditions(reply: Reply): (r: Poll<Result<()>>)
    ensures r == Pending <==> reply.status.cmdact
    ensures r == Done(Ok(())) <==> CompleteShort(SendIfCond, reply) == Done(Ok(SendIfCondPattern))
    ensures r == Done(Err(OperatingConditionsNotSupported)) <==>
      exists p :: p != SendIfCondPattern && CompleteShort(SendIfCond, reply) == Done(Ok(p))
    ensures Failed(CompleteShort(SendIfCond, reply)) ==> r == Done(Err(CompleteShort(SendIfCond, reply).result.error))
  {
    match CompleteShort(SendIfCond, reply)
    case Pending => Pending
    case Done(Err(e)) => Done(Err(e))
    case Done(Ok(received)) =>
      if received != SendIfCondPattern then Done(Err(OperatingConditionsNotSupported))
      else Done(Ok(()))
  }

  /**
   * The SD_SEND_OP_COND argument: the 3.2-3.3 V window (bit 20) and, for a
   * host that supports high capacity, HCS (bit 30).
   */
  function OpCondArg(hcs: bool): (arg: bv32)
    ensures (arg >> 20) & 1 == 1
    ensures (arg >> 30) & 1 == 1 <==> hcs
    ensures arg & !0x4010_0000 == 0
  {
    0x0010_0000 | ((if hcs then 1 else 0) << 30)
  }

  /**
   * The blocking wait of a short-response command over successive polls: the
   * outcome of the first poll that shows the command finished, or Pending
   * while every poll so far shows it still active.
   */
  function AwaitShort(cmd: Command, polls: seq<Reply>): (r: Poll<Result<bv32>>)
    ensures r == Pending <==> forall j :: 0 <= j < |polls| ==> polls[j].status.cmdact
    ensures r.Done? ==>
      exists i :: 0 <= i < |polls| && r == CompleteShort(cmd, polls[i]) &&
        forall j :: 0 <= j < i ==> polls[j].status.cmdact
    decreases |polls|
  {
    if |polls| == 0 then Pending
    else
      match CompleteShort(cmd, polls[0])
      case Pending => AwaitShort(cmd, polls[1..])
      case Done(x) => Done(x)
  }
}
