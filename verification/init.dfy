/**
 * Card initialisation: the identification sequence that takes a card from
 * any state to the transfer state and records what the host learns on the
 * way. The sequence is modelled as phases, one per command: entering a
 * phase sends its command, and each poll of the host either leaves the
 * command in flight (Wait), moves on, or ends the sequence. The ACMD41
 * loop alternates between the APP_CMD and SD_SEND_OP_COND phases until the
 * card reports that it has finished powering up.
 */
module Init {
  import opened SdTypes
  import opened CsdRegister
  import opened Transport
  import opened Host

  /** The command whose completion the sequence is waiting for. */
  datatype Phase =
    | AwaitGoIdle
    | AwaitIfCond
    | AwaitAppCmd(v2: bool)
    | AwaitOpCond(v2: bool)
    | AwaitCid
    | AwaitRca
    | AwaitCsd
    | AwaitSelect
    | AwaitBusAppCmd
    | AwaitBusWidth

  /** The command each phase sends, given what the host knows when it enters the phase. */
  function PhaseCommand(p: Phase, s: Session, cfg: Config): (f: Frame)
    ensures f.opcode.ACmd? <==> p.AwaitOpCond? || p == AwaitBusWidth
    ensures f.response == LongResponse <==> p == AwaitCid || p == AwaitCsd
    ensures f.response == NoResponse <==> p == AwaitGoIdle
    ensures p == AwaitCsd || p == AwaitSelect || p == AwaitBusAppCmd ==> f.arg == s.rca
  {
    match p
    case AwaitGoIdle => Frame(Cmd(GoIdleState), 0, NoResponse)
    case AwaitIfCond => Frame(Cmd(SendIfCond), SendIfCondPattern, ShortResponse)
    case AwaitAppCmd(_) => Frame(Cmd(AppCmd), 0, ShortResponse)
    case AwaitOpCond(v2) => Frame(ACmd(SdSendOpCond), OpCondArg(v2), ShortResponse)
    case AwaitCid => Frame(Cmd(AllSendCid), 0, LongResponse)
    case AwaitRca => Frame(Cmd(SendRelativeAddr), 0, ShortResponse)
    case AwaitCsd => Frame(Cmd(SendCsd), s.rca, LongResponse)
    case AwaitSelect => Frame(Cmd(SelectCard), s.rca, ShortResponse)
    case AwaitBusAppCmd => Frame(Cmd(AppCmd), s.rca, ShortResponse)
    case AwaitBusWidth => Frame(ACmd(SetBusWidth), BusWidthArg(cfg.busWidth), ShortResponse)
  }

  /** What one poll does to the sequence. */
  datatype Step =
    | Wait
    | Advance(next: Phase, session: Session)
    | Abort(error: Error)
    | Finish(session: Session)

  /** The card version from the SEND_IF_COND outcome and the CCS bit of the OCR. */
  function VersionOf(v2: bool, ccs: bool): (v: CardVersion)
    ensures v == V1SC <==> !v2
    ensures v == V2HC <==> v2 && ccs
  {
    if !v2 then V1SC else if ccs then V2HC else V2SC
  }

  /** Only a high-capacity card has its CSD read with the version 2.0 layout. */
  function TagCsd(version: CardVersion, words: Words): (csd: Csd)
    ensures csd.words == words
    ensures csd.V2? <==> version == V2HC
  {
    match version
    case V1SC => V1(words)
    case V2SC => V1(words)
    case V2HC => V2(words)
  }

  /** The host's CSD layout agrees with the card version it recorded. */
  predicate CsdMatchesVersion(s: Session)
  {
    s.csd.V2? <==> s.version == V2HC
  }

  /** GO_IDLE_STATE: no response, so only the command-sent flag confirms it. */
  function GoIdleStep(s: Session, reply: Reply): (o: Step)
    ensures o == Wait <==> reply.status.cmdact
    ensures o.Advance? <==> CheckCommand(reply.status, false) == Done(Ok(()))
    ensures o.Advance? ==> o == Advance(AwaitIfCond, s)
    ensures o.Abort? <==> Failed(CheckCommand(reply.status, false))
    ensures o.Abort? ==> CheckCommand(reply.status, false) == Done(Err(o.error))
  {
    match CheckCommand(reply.status, false)
    case Pending => Wait
    case Done(Err(e)) => Abort(e)
    case Done(Ok(_)) => Advance(AwaitIfCond, s)
  }

  /**
   * SEND_IF_COND decides the card generation: a timeout means a version 1
   * card, the echoed check pattern a version 2 card, and anything else
   * (including a wrong pattern) ends initialisation.
   */
  function IfCondStep(s: Session, reply: Reply): (o: Step)
    ensures o == Wait <==> reply.status.cmdact
    ensures o == Advance(AwaitAppCmd(false), s) <==> CompleteShort(SendIfCond, reply) == Done(Err(Timeout))
    ensures o == Advance(AwaitAppCmd(true), s) <==> CompleteShort(SendIfCond, reply) == Done(Ok(SendIfCondPattern))
    ensures o.Advance? ==> o.next.AwaitAppCmd? && o.session == s
    ensures o.Abort? ==> o.error != Timeout
    ensures Failed(CheckOperatingConditions(reply)) && CheckOperatingConditions(reply).result.error != Timeout ==>
      o == Abort(CheckOperatingConditions(reply).result.error)
  {
    match CheckOperatingConditions(reply)
    case Pending => Wait
    case Done(Err(Timeout)) => Advance(AwaitAppCmd(false), s)
    case Done(Ok(_)) => Advance(AwaitAppCmd(true), s)
    case Done(Err(e)) => Abort(e)
  }

  /** The APP_CMD that precedes each SD_SEND_OP_COND. */
  function AppCmdStep(v2: bool, s: Session, reply: Reply): (o: Step)
    ensures o == Wait <==> reply.status.cmdact
    ensures o.Advance? <==> CompleteShort(AppCmd, reply).Done? && CompleteShort(AppCmd, reply).result.Ok?
    ensures o.Advance? ==> o == Advance(AwaitOpCond(v2), s)
    ensures o.Abort? <==> Failed(CompleteShort(AppCmd, reply))
    ensures o.Abort? ==> CompleteShort(AppCmd, reply) == Done(Err(o.error))
  {
    match CompleteShort(AppCmd, reply)
    case Pending => Wait
    case Done(Err(e)) => Abort(e)
    case Done(Ok(_)) => Advance(AwaitOpCond(v2), s)
  }

  /**
   * SD_SEND_OP_COND: while the busy bit (bit 31 of the OCR) is clear the
   * card is still powering up and the loop repeats; once it is set, the
   * card capacity status (bit 30) fixes the card version.
   */
  function OpCondStep(v2: bool, s: Session, reply: Reply): (o: Step)
    ensures o == Wait <==> reply.status.cmdact
    ensures o.Advance? <==> CompleteOpCond(reply) == Done(Ok(reply.resp[0]))
    ensures o.Advance? ==> (o.next == AwaitCid <==> reply.resp[0] >> 31 == 1)
    ensures o.Advance? && o.next == AwaitCid ==>
      o.session == s.(version := VersionOf(v2, (reply.resp[0] >> 30) & 1 == 1))
    ensures o.Advance? && o.next != AwaitCid ==> o == Advance(AwaitAppCmd(v2), s)
    ensures o.Abort? <==> Failed(CompleteOpCond(reply))
    ensures o.Abort? ==> CompleteOpCond(reply) == Done(Err(o.error))
  {
    match CompleteOpCond(reply)
    case Pending => Wait
    case Done(Err(e)) => Abort(e)
    case Done(Ok(ocr)) =>
      if ocr >> 31 != 0 then
        var ccs := (ocr >> 30) & 1 != 0;
        Advance(AwaitCid, s.(version := VersionOf(v2, ccs)))
      else
        Advance(AwaitAppCmd(v2), s)
  }

  /** ALL_SEND_CID: the identification register is read and discarded. */
  function CidStep(s: Session, reply: Reply): (o: Step)
    ensures o == Wait <==> reply.status.cmdact
    ensures o.Advance? <==> CompleteLong(reply) == Done(Ok(reply.resp))
    ensures o.Advance? ==> o == Advance(AwaitRca, s)
    ensures o.Abort? <==> Failed(CompleteLong(reply))
    ensures o.Abort? ==> CompleteLong(reply) == Done(Err(o.error))
  {
    match CompleteLong(reply)
    case Pending => Wait
    case Done(Err(e)) => Abort(e)
    case Done(Ok(_)) => Advance(AwaitRca, s)
  }

  /** SEND_RELATIVE_ADDR: the new address is the upper half of the response. */
  function RcaStep(s: Session, reply: Reply): (o: Step)
    ensures o == Wait <==> reply.status.cmdact
    ensures o.Advance? <==> CompleteShort(SendRelativeAddr, reply) == Done(Ok(reply.resp[0]))
    ensures o.Advance? ==> o == Advance(AwaitCsd, s.(rca := reply.resp[0] & 0xffff_0000))
    ensures o.Abort? <==> Failed(CompleteShort(SendRelativeAddr, reply))
    ensures o.Abort? ==> CompleteShort(SendRelativeAddr, reply) == Done(Err(o.error))
  {
    match CompleteShort(SendRelativeAddr, reply)
    case Pending => Wait
    case Done(Err(e)) => Abort(e)
    case Done(Ok(status)) => Advance(AwaitCsd, s.(rca := status & 0xffff_0000))
  }

  /** SEND_CSD: the register is stored with the layout the card version calls for. */
  function CsdStep(s: Session, reply: Reply): (o: Step)
    ensures o == Wait <==> reply.status.cmdact
    ensures o.Advance? <==> CompleteLong(reply) == Done(Ok(reply.resp))
    ensures o.Advance? ==> o == Advance(AwaitSelect, s.(csd := TagCsd(s.version, reply.resp)))
    ensures o.Advance? ==> CsdMatchesVersion(o.session) && o.session.csd.words == reply.resp
    ensures o.Abort? <==> Failed(CompleteLong(reply))
    ensures o.Abort? ==> CompleteLong(reply) == Done(Err(o.error))
  {
    match CompleteLong(reply)
    case Pending => Wait
    case Done(Err(e)) => Abort(e)
    case Done(Ok(words)) => Advance(AwaitSelect, s.(csd := TagCsd(s.version, words)))
  }

  /** SELECT_CARD: stand-by to transfer state. */
  function SelectStep(s: Session, reply: Reply): (o: Step)
    ensures o == Wait <==> reply.status.cmdact
    ensures o.Advance? <==> CompleteShort(SelectCard, reply) == Done(Ok(reply.resp[0]))
    ensures o.Advance? ==> o == Advance(AwaitBusAppCmd, s)
    ensures o.Abort? <==> Failed(CompleteShort(SelectCard, reply))
    ensures o.Abort? ==> CompleteShort(SelectCard, reply) == Done(Err(o.error))
  {
    match CompleteShort(SelectCard, reply)
    case Pending => Wait
    case Done(Err(e)) => Abort(e)
    case Done(Ok(_)) => Advance(AwaitBusAppCmd, s)
  }

  /** The APP_CMD, addressed to the card, before SET_BUS_WIDTH. */
  function BusAppCmdStep(s: Session, reply: Reply): (o: Step)
    ensures o == Wait <==> reply.status.cmdact
    ensures o.Advance? <==> CompleteShort(AppCmd, reply) == Done(Ok(reply.resp[0]))
    ensures o.Advance? ==> o == Advance(AwaitBusWidth, s)
    ensures o.Abort? <==> Failed(CompleteShort(AppCmd, reply))
    ensures o.Abort? ==> CompleteShort(AppCmd, reply) == Done(Err(o.error))
  {
    match CompleteShort(AppCmd, reply)
    case Pending => Wait
    case Done(Err(e)) => Abort(e)
    case Done(Ok(_)) => Advance(AwaitBusWidth, s)
  }

  /** SET_BUS_WIDTH: the last command; on success the host is ready. */
  function BusWidthStep(s: Session, reply: Reply): (o: Step)
    ensures o == Wait <==> reply.status.cmdact
    ensures o.Finish? <==> CompleteApp(reply) == Done(Ok(reply.resp[0]))
    ensures o.Finish? ==> o.session == s.(state := Ready)
    ensures o.Abort? <==> Failed(CompleteApp(reply))
    ensures o.Abort? ==> CompleteApp(reply) == Done(Err(o.error))
  {
    match CompleteApp(reply)
    case Pending => Wait
    case Done(Err(e)) => Abort(e)
    case Done(Ok(_)) => Finish(s.(state := Ready))
  }

  /** One poll in the given phase. */
  function InitStep(p: Phase, s: Session, cfg: Config, reply: Reply): (o: Step)
    ensures o.Finish? ==> p == AwaitBusWidth && o.session == s.(state := Ready)
    ensures o.Advance? ==> o.session.state == s.state
    ensures o.Advance? && o.session.rca != s.rca ==> p == AwaitRca
    ensures o.Advance? && o.session.version != s.version ==> p.AwaitOpCond?
    ensures o.Advance? && o.session.csd != s.csd ==> p == AwaitCsd
  {
    match p
    case AwaitGoIdle => GoIdleStep(s, reply)
    case AwaitIfCond => IfCondStep(s, reply)
    case AwaitAppCmd(v2) => AppCmdStep(v2, s, reply)
    case AwaitOpCond(v2) => OpCondStep(v2, s, reply)
    case AwaitCid => CidStep(s, reply)
    case AwaitRca => RcaStep(s, reply)
    case AwaitCsd => CsdStep(s, reply)
    case AwaitSelect => SelectStep(s, reply)
    case AwaitBusAppCmd => BusAppCmdStep(s, reply)
    case AwaitBusWidth => BusWidthStep(s, reply)
  }

  /**
   * The state of an initialisation after a run of polls: the session as the
   * driver has updated it, whether the call has returned (and with what),
   * and the commands sent.
   */
  datatype InitRun = InitRun(session: Session, outcome: Poll<Result<()>>, issued: seq<Frame>)

  /** Phases entered after the card version has been fixed. */
  predicate AfterOpCond(p: Phase)
  {
    p == AwaitCid || AfterCid(p)
  }

  predicate AfterCid(p: Phase)
  {
    p == AwaitRca || AfterRca(p)
  }

  /** Phases entered after the relative address has been assigned. */
  predicate AfterRca(p: Phase)
  {
    p == AwaitCsd || AfterCsd(p)
  }

  /** Phases entered after the CSD has been stored. */
  predicate AfterCsd(p: Phase)
  {
    p == AwaitSelect || p == AwaitBusAppCmd || p == AwaitBusWidth
  }

  /** The phase invariant: once the CSD is stored, its layout matches the version. */
  predicate PhaseInvariant(p: Phase, s: Session)
  {
    AfterCsd(p) ==> CsdMatchesVersion(s)
  }

  /**
   * Runs the sequence from phase p over the given polls. The first poll
   * belongs to p's command, which has already been sent. The call returns
   * (Done) when a command fails or the last one succeeds; while polls run
   * out first it has not returned (Pending).
   */
  function RunInit(p: Phase, s: Session, cfg: Config, replies: seq<Reply>): (r: InitRun)
    ensures |r.issued| <= |replies|
    decreases |replies|
  {
    if |replies| == 0 then InitRun(s, Pending, [])
    else
      match InitStep(p, s, cfg, replies[0])
      case Wait => RunInit(p, s, cfg, replies[1..])
      case Abort(e) => InitRun(s, Done(Err(e)), [])
      case Finish(s') => InitRun(s', Done(Ok(())), [])
      case Advance(p', s') =>
        var rest := RunInit(p', s', cfg, replies[1..]);
        rest.(issued := [PhaseCommand(p', s', cfg)] + rest.issued)
  }

  /**
   * The initialisation call over a sequence of polls: GO_IDLE_STATE is sent
   * first, then each phase's command as the previous one completes.
   */
  function Initialize(s: Session, cfg: Config, replies: seq<Reply>): (r: InitRun)
    ensures 1 <= |r.issued| <= |replies| + 1
    ensures r.issued[0] == Frame(Cmd(GoIdleState), 0, NoResponse)
  {
    var run := RunInit(AwaitGoIdle, s, cfg, replies);
    run.(issued := [PhaseCommand(AwaitGoIdle, s, cfg)] + run.issued)
  }

  /** The relative address the driver keeps is the upper half of the card's response. */
  lemma RcaStepAddress(s: Session, reply: Reply)
    requires RcaStep(s, reply).Advance?
    ensures RcaAligned(RcaStep(s, reply).session)
    ensures RcaStep(s, reply).session.rca >> 16 == reply.resp[0] >> 16
  {
  }

  /** Only a successful return makes the host Ready; anything else leaves its state alone. */
  lemma {:induction false} RunInitState(p: Phase, s: Session, cfg: Config, replies: seq<Reply>)
    ensures RunInit(p, s, cfg, replies).outcome == Done(Ok(())) ==>
      RunInit(p, s, cfg, replies).session.state == Ready
    ensures RunInit(p, s, cfg, replies).outcome != Done(Ok(())) ==>
      RunInit(p, s, cfg, replies).session.state == s.state
    decreases |replies|
  {
    if |replies| > 0 {
      var o := InitStep(p, s, cfg, replies[0]);
      if o.Wait? {
        RunInitState(p, s, cfg, replies[1..]);
      } else if o.Advance? {
        RunInitState(o.next, o.session, cfg, replies[1..]);
      }
    }
  }

  /** One poll keeps the relative address aligned, and fixed once assigned. */
  lemma StepRca(p: Phase, s: Session, cfg: Config, reply: Reply)
    requires InitStep(p, s, cfg, reply).Advance?
    ensures RcaAligned(s) ==> RcaAligned(InitStep(p, s, cfg, reply).session)
    ensures AfterRca(p) ==> AfterRca(InitStep(p, s, cfg, reply).next)
    ensures AfterRca(p) ==> InitStep(p, s, cfg, reply).session.rca == s.rca
  {
    if p == AwaitRca {
      RcaStepAddress(s, reply);
    }
  }

  /** The relative address stays aligned, and is fixed once assigned. */
  lemma {:induction false} RunInitRca(p: Phase, s: Session, cfg: Config, replies: seq<Reply>)
    ensures RcaAligned(s) ==> RcaAligned(RunInit(p, s, cfg, replies).session)
    ensures AfterRca(p) ==> RunInit(p, s, cfg, replies).session.rca == s.rca
    decreases |replies|
  {
    if |replies| > 0 {
      var o := InitStep(p, s, cfg, replies[0]);
      if o.Wait? {
        RunInitRca(p, s, cfg, replies[1..]);
      } else if o.Advance? {
        StepRca(p, s, cfg, replies[0]);
        RunInitRca(o.next, o.session, cfg, replies[1..]);
      }
    }
  }

  /** One poll after power-up neither changes the version nor goes back before CID. */
  lemma StepVersion(p: Phase, s: Session, cfg: Config, reply: Reply)
    requires AfterOpCond(p)
    requires InitStep(p, s, cfg, reply).Advance?
    ensures AfterOpCond(InitStep(p, s, cfg, reply).next)
    ensures InitStep(p, s, cfg, reply).session.version == s.version
  {
    if p == AwaitCid {
      assert InitStep(p, s, cfg, reply) == CidStep(s, reply);
    } else if p == AwaitRca {
      assert InitStep(p, s, cfg, reply) == RcaStep(s, reply);
    } else if p == AwaitCsd {
      assert InitStep(p, s, cfg, reply) == CsdStep(s, reply);
    } else if p == AwaitSelect {
      assert InitStep(p, s, cfg, reply) == SelectStep(s, reply);
    } else if p == AwaitBusAppCmd {
      assert InitStep(p, s, cfg, reply) == BusAppCmdStep(s, reply);
    }
  }

  /** The card version is fixed once SD_SEND_OP_COND has reported power-up. */
  lemma {:induction false} RunInitVersion(p: Phase, s: Session, cfg: Config, replies: seq<Reply>)
    requires AfterOpCond(p)
    ensures RunInit(p, s, cfg, replies).session.version == s.version
    decreases |replies|
  {
    if |replies| > 0 {
      var o := InitStep(p, s, cfg, replies[0]);
      if o.Wait? {
        RunInitVersion(p, s, cfg, replies[1..]);
      } else if o.Advance? {
        StepVersion(p, s, cfg, replies[0]);
        RunInitVersion(o.next, o.session, cfg, replies[1..]);
      }
    }
  }

  /** One poll keeps the phase invariant, and a finishing poll establishes its conclusion. */
  lemma StepCsd(p: Phase, s: Session, cfg: Config, reply: Reply)
    requires PhaseInvariant(p, s)
    ensures InitStep(p, s, cfg, reply).Advance? ==>
      PhaseInvariant(InitStep(p, s, cfg, reply).next, InitStep(p, s, cfg, reply).session)
    ensures InitStep(p, s, cfg, reply).Finish? ==> CsdMatchesVersion(InitStep(p, s, cfg, reply).session)
  {
  }

  /** A successful run ends with the CSD layout matching the card version. */
  lemma {:induction false} RunInitCsd(p: Phase, s: Session, cfg: Config, replies: seq<Reply>)
    requires PhaseInvariant(p, s)
    ensures RunInit(p, s, cfg, replies).outcome == Done(Ok(())) ==>
      CsdMatchesVersion(RunInit(p, s, cfg, replies).session)
    decreases |replies|
  {
    if |replies| > 0 {
      var o := InitStep(p, s, cfg, replies[0]);
      StepCsd(p, s, cfg, replies[0]);
      if o.Wait? {
        RunInitCsd(p, s, cfg, replies[1..]);
      } else if o.Advance? {
        RunInitCsd(o.next, o.session, cfg, replies[1..]);
      }
    }
  }

  /**
   * An initialisation that returns success leaves the host Ready; a failure,
   * or a call that has not returned, leaves the host state as it was.
   */
  lemma InitReadyOnSuccess(s: Session, cfg: Config, replies: seq<Reply>)
    ensures Initialize(s, cfg, replies).outcome == Done(Ok(())) ==>
      Initialize(s, cfg, replies).session.state == Ready
    ensures Initialize(s, cfg, replies).outcome != Done(Ok(())) ==>
      Initialize(s, cfg, replies).session.state == s.state
  {
    RunInitState(AwaitGoIdle, s, cfg, replies);
  }

  /** Initialisation keeps the relative address aligned. */
  lemma InitRcaAligned(s: Session, cfg: Config, replies: seq<Reply>)
    requires RcaAligned(s)
    ensures RcaAligned(Initialize(s, cfg, replies).session)
  {
    RunInitRca(AwaitGoIdle, s, cfg, replies);
  }

  /** After a successful initialisation the stored CSD layout matches the card version. */
  lemma InitCsdMatchesVersion(s: Session, cfg: Config, replies: seq<Reply>)
    requires Initialize(s, cfg, replies).outcome == Done(Ok(()))
    ensures CsdMatchesVersion(Initialize(s, cfg, replies).session)
  {
    RunInitCsd(AwaitGoIdle, s, cfg, replies);
  }
}
