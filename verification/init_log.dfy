/**
 * The command log of a successful initialisation: the fixed opening, one or
 * more APP_CMD / SD_SEND_OP_COND rounds, and the fixed identification and
 * selection tail, whose addressed commands carry the assigned address.
 */
module InitLog {
  import opened SdTypes
  import opened Transport
  import opened Host
  import opened Init

  /** One round of the power-up loop: APP_CMD to no card in particular, then SD_SEND_OP_COND. */
  function OpCondRound(v2: bool): seq<Frame>
  {
    [Frame(Cmd(AppCmd), 0, ShortResponse), Frame(ACmd(SdSendOpCond), OpCondArg(v2), ShortResponse)]
  }

  /** k rounds of the power-up loop. */
  function Rounds(v2: bool, k: nat): (r: seq<Frame>)
    ensures |r| == 2 * k
    decreases k
  {
    if k == 0 then [] else OpCondRound(v2) + Rounds(v2, k - 1)
  }

  /** The commands after power-up: identify, address, read the CSD, select, set the bus width. */
  function Closing(rca: bv32, cfg: Config): seq<Frame>
  {
    [ Frame(Cmd(AllSendCid), 0, LongResponse),
      Frame(Cmd(SendRelativeAddr), 0, ShortResponse),
      Frame(Cmd(SendCsd), rca, LongResponse),
      Frame(Cmd(SelectCard), rca, ShortResponse),
      Frame(Cmd(AppCmd), rca, ShortResponse),
      Frame(ACmd(SetBusWidth), BusWidthArg(cfg.busWidth), ShortResponse) ]
  }

  /** The commands a successful run sends after the command of a phase entered after power-up. */
  function ClosingFrom(p: Phase, rca: bv32, cfg: Config): seq<Frame>
    decreases if p == AwaitCid then 5 else if p == AwaitRca then 4 else if p == AwaitCsd then 3
      else if p == AwaitSelect then 2 else if p == AwaitBusAppCmd then 1 else 0
  {
    match p
    case AwaitCid => [Frame(Cmd(SendRelativeAddr), 0, ShortResponse)] + ClosingFrom(AwaitRca, rca, cfg)
    case AwaitRca => [Frame(Cmd(SendCsd), rca, LongResponse)] + ClosingFrom(AwaitCsd, rca, cfg)
    case AwaitCsd => [Frame(Cmd(SelectCard), rca, ShortResponse)] + ClosingFrom(AwaitSelect, rca, cfg)
    case AwaitSelect => [Frame(Cmd(AppCmd), rca, ShortResponse)] + ClosingFrom(AwaitBusAppCmd, rca, cfg)
    case AwaitBusAppCmd => [Frame(ACmd(SetBusWidth), BusWidthArg(cfg.busWidth), ShortResponse)]
    case _ => []
  }

  /**
   * The commands a successful run sends after the command of phase p: v2 is
   * the outcome of SEND_IF_COND, k the number of power-up rounds still to
   * come and rca the address the card assigned.
   */
  function Expected(p: Phase, v2: bool, k: nat, rca: bv32, cfg: Config): seq<Frame>
    decreases k, if p == AwaitGoIdle then 3 else if p == AwaitIfCond then 2 else if p.AwaitAppCmd? then 1 else 0
  {
    match p
    case AwaitGoIdle =>
      [Frame(Cmd(SendIfCond), SendIfCondPattern, ShortResponse)] + Expected(AwaitIfCond, v2, k, rca, cfg)
    case AwaitIfCond => [Frame(Cmd(AppCmd), 0, ShortResponse)] + Expected(AwaitAppCmd(v2), v2, k, rca, cfg)
    case AwaitAppCmd(v) => [Frame(ACmd(SdSendOpCond), OpCondArg(v), ShortResponse)] + Expected(AwaitOpCond(v), v2, k, rca, cfg)
    case AwaitOpCond(v) =>
      if k == 0 then [Frame(Cmd(AllSendCid), 0, LongResponse)] + ClosingFrom(AwaitCid, rca, cfg)
      else [Frame(Cmd(AppCmd), 0, ShortResponse)] + Expected(AwaitAppCmd(v), v2, k - 1, rca, cfg)
    case _ => ClosingFrom(p, rca, cfg)
  }

  /** The phases whose command is part of the power-up loop carry the loop's SEND_IF_COND outcome. */
  predicate LoopPhase(p: Phase)
  {
    p.AwaitAppCmd? || p.AwaitOpCond?
  }

  /** Phase q may directly follow phase p. */
  predicate Follows(p: Phase, q: Phase)
  {
    (p == AwaitGoIdle && q == AwaitIfCond) ||
    (p == AwaitIfCond && q.AwaitAppCmd?) ||
    (p.AwaitAppCmd? && q == AwaitOpCond(p.v2)) ||
    (p.AwaitOpCond? && (q == AwaitAppCmd(p.v2) || q == AwaitCid)) ||
    (p == AwaitCid && q == AwaitRca) ||
    (p == AwaitRca && q == AwaitCsd) ||
    (p == AwaitCsd && q == AwaitSelect) ||
    (p == AwaitSelect && q == AwaitBusAppCmd) ||
    (p == AwaitBusAppCmd && q == AwaitBusWidth)
  }

  /** The phase order: a successful poll moves to a phase that may follow, and never from the last. */
  lemma StepPhase(p: Phase, s: Session, cfg: Config, reply: Reply)
    requires InitStep(p, s, cfg, reply).Advance?
    ensures Follows(p, InitStep(p, s, cfg, reply).next)
  {
  }

  /** After power-up, entering phase q from p sends q's command, which heads p's closing log. */
  lemma ClosingStep(p: Phase, q: Phase, s: Session, cfg: Config)
    requires Follows(p, q) && AfterOpCond(p)
    ensures [PhaseCommand(q, s, cfg)] + ClosingFrom(q, s.rca, cfg) == ClosingFrom(p, s.rca, cfg)
  {
  }

  /**
   * Entering phase q from phase p sends q's command, which heads p's
   * expected log; a new round of the loop uses up one of the k rounds.
   */
  lemma ExpectedStep(p: Phase, q: Phase, v2: bool, k: nat, rca: bv32, s: Session, cfg: Config)
    returns (k': nat)
    requires Follows(p, q)
    requires AfterRca(q) ==> s.rca == rca
    requires LoopPhase(q) ==> q.v2 == v2
    ensures [PhaseCommand(q, s, cfg)] + Expected(q, v2, k, rca, cfg) == Expected(p, v2, k', rca, cfg)
  {
    if AfterOpCond(p) {
      k' := k;
      var s' := s.(rca := rca);
      ClosingStep(p, q, s', cfg);
      assert PhaseCommand(q, s', cfg) == PhaseCommand(q, s, cfg);
      assert Expected(q, v2, k, rca, cfg) == ClosingFrom(q, rca, cfg);
      assert Expected(p, v2, k, rca, cfg) == ClosingFrom(p, rca, cfg);
    } else if p.AwaitOpCond? {
      k' := if q.AwaitAppCmd? then k + 1 else 0;
    } else {
      k' := k;
    }
  }

  /** The log of a run that enters phase q from phase p, from the log of the run from q. */
  lemma AdvanceLog(p: Phase, q: Phase, s: Session, cfg: Config, rest: InitRun, w: bool, j: nat)
    returns (v2: bool, k: nat)
    requires Follows(p, q)
    requires AfterRca(q) ==> s.rca == rest.session.rca
    requires LoopPhase(q) ==> q.v2 == w
    requires rest.outcome == Done(Ok(())) ==> rest.issued == Expected(q, w, j, rest.session.rca, cfg)
    ensures LoopPhase(p) ==> v2 == p.v2
    ensures rest.outcome == Done(Ok(())) ==>
      [PhaseCommand(q, s, cfg)] + rest.issued == Expected(p, v2, k, rest.session.rca, cfg)
  {
    v2 := if LoopPhase(p) then p.v2 else w;
    if LoopPhase(p) && !LoopPhase(q) {
      assert Expected(q, w, j, rest.session.rca, cfg) == Expected(q, v2, j, rest.session.rca, cfg);
    }
    k := ExpectedStep(p, q, v2, j, rest.session.rca, s, cfg);
  }

  /**
   * A run from phase p that returns success sends exactly p's expected log,
   * for some SEND_IF_COND outcome and number of rounds, with the address
   * the session ends with.
   */
  lemma {:induction false} RunInitLog(p: Phase, s: Session, cfg: Config, replies: seq<Reply>)
    returns (v2: bool, k: nat)
    ensures RunInit(p, s, cfg, replies).outcome == Done(Ok(())) ==>
      RunInit(p, s, cfg, replies).issued == Expected(p, v2, k, RunInit(p, s, cfg, replies).session.rca, cfg)
    ensures LoopPhase(p) ==> v2 == p.v2
    decreases |replies|
  {
    v2, k := if LoopPhase(p) then p.v2 else false, 0;
    if |replies| > 0 {
      var o := InitStep(p, s, cfg, replies[0]);
      if o.Wait? {
        v2, k := RunInitLog(p, s, cfg, replies[1..]);
      } else if o.Advance? {
        var w, j := RunInitLog(o.next, o.session, cfg, replies[1..]);
        var rest := RunInit(o.next, o.session, cfg, replies[1..]);
        RunInitRca(o.next, o.session, cfg, replies[1..]);
        StepPhase(p, s, cfg, replies[0]);
        v2, k := AdvanceLog(p, o.next, o.session, cfg, rest, w, j);
        assert RunInit(p, s, cfg, replies) == rest.(issued := [PhaseCommand(o.next, o.session, cfg)] + rest.issued);
      } else if o.Finish? {
        assert Expected(p, v2, k, o.session.rca, cfg) == [];
      }
    }
  }

  /**
   * The power-up loop asks for high capacity exactly when the card answered
   * SEND_IF_COND, and a successful run records a version 1 card exactly when
   * it did not.
   */
  lemma {:induction false} RunLoopVersion(p: Phase, s: Session, cfg: Config, replies: seq<Reply>)
    requires LoopPhase(p)
    ensures RunInit(p, s, cfg, replies).outcome == Done(Ok(())) ==>
      (RunInit(p, s, cfg, replies).session.version != V1SC <==> p.v2)
    decreases |replies|
  {
    if |replies| > 0 {
      var o := InitStep(p, s, cfg, replies[0]);
      if o.Wait? {
        RunLoopVersion(p, s, cfg, replies[1..]);
      } else if o.Advance? {
        StepPhase(p, s, cfg, replies[0]);
        if LoopPhase(o.next) {
          RunLoopVersion(o.next, o.session, cfg, replies[1..]);
        } else {
          assert o == OpCondStep(p.v2, s, replies[0]);
          RunInitVersion(o.next, o.session, cfg, replies[1..]);
        }
      }
    }
  }

  /**
   * The first SD_SEND_OP_COND a successful run sends asks for high capacity
   * exactly when the run records a card other than version 1; it is the
   * third, second or first command sent after GO_IDLE_STATE, SEND_IF_COND
   * or APP_CMD respectively.
   */
  lemma {:induction false} FirstOpCondFrame(p: Phase, s: Session, cfg: Config, replies: seq<Reply>)
    requires p == AwaitGoIdle || p == AwaitIfCond || p.AwaitAppCmd?
    requires RunInit(p, s, cfg, replies).outcome == Done(Ok(()))
    ensures var i := if p == AwaitGoIdle then 2 else if p == AwaitIfCond then 1 else 0;
      i < |RunInit(p, s, cfg, replies).issued| &&
      RunInit(p, s, cfg, replies).issued[i] ==
        Frame(ACmd(SdSendOpCond), OpCondArg(RunInit(p, s, cfg, replies).session.version != V1SC), ShortResponse)
    decreases |replies|
  {
    var o := InitStep(p, s, cfg, replies[0]);
    var run := RunInit(p, s, cfg, replies);
    if o.Wait? {
      FirstOpCondFrame(p, s, cfg, replies[1..]);
    } else if o.Advance? {
      StepPhase(p, s, cfg, replies[0]);
      var rest := RunInit(o.next, o.session, cfg, replies[1..]);
      assert run == rest.(issued := [PhaseCommand(o.next, o.session, cfg)] + rest.issued);
      if p.AwaitAppCmd? {
        RunLoopVersion(o.next, o.session, cfg, replies[1..]);
      } else {
        FirstOpCondFrame(o.next, o.session, cfg, replies[1..]);
      }
    }
  }

  /** Different HCS requests give different SD_SEND_OP_COND arguments. */
  lemma OpCondArgInjective(a: bool, b: bool)
    ensures OpCondArg(a) == OpCondArg(b) ==> a == b
  {
  }

  /** The closing log after ALL_SEND_CID is the closing commands but the first. */
  lemma ClosingFromCid(rca: bv32, cfg: Config)
    ensures [Frame(Cmd(AllSendCid), 0, LongResponse)] + ClosingFrom(AwaitCid, rca, cfg) == Closing(rca, cfg)
  {
    var c := Closing(rca, cfg);
    assert ClosingFrom(AwaitBusAppCmd, rca, cfg) == c[5..];
    assert ClosingFrom(AwaitSelect, rca, cfg) == c[4..];
    assert ClosingFrom(AwaitCsd, rca, cfg) == c[3..];
    assert ClosingFrom(AwaitRca, rca, cfg) == c[2..];
    assert ClosingFrom(AwaitCid, rca, cfg) == c[1..];
  }

  /** The expected log from SD_SEND_OP_COND: the remaining rounds, then the closing commands. */
  lemma {:induction false} ExpectedFromOpCond(v: bool, v2: bool, k: nat, rca: bv32, cfg: Config)
    ensures Expected(AwaitOpCond(v), v2, k, rca, cfg) == Rounds(v, k) + Closing(rca, cfg)
    decreases k
  {
    if k == 0 {
      ClosingFromCid(rca, cfg);
    } else {
      ExpectedFromOpCond(v, v2, k - 1, rca, cfg);
      calc {
        Expected(AwaitOpCond(v), v2, k, rca, cfg);
        [Frame(Cmd(AppCmd), 0, ShortResponse)] + Expected(AwaitAppCmd(v), v2, k - 1, rca, cfg);
        [Frame(Cmd(AppCmd), 0, ShortResponse)] +
          ([Frame(ACmd(SdSendOpCond), OpCondArg(v), ShortResponse)] + (Rounds(v, k - 1) + Closing(rca, cfg)));
        OpCondRound(v) + Rounds(v, k - 1) + Closing(rca, cfg);
      }
    }
  }

  /**
   * A successful initialisation sends GO_IDLE_STATE, SEND_IF_COND, one or
   * more power-up rounds, then ALL_SEND_CID, SEND_RELATIVE_ADDR, and
   * SEND_CSD, SELECT_CARD and APP_CMD to the assigned address, and last
   * SET_BUS_WIDTH with the configured width.
   */
  lemma InitLog(s: Session, cfg: Config, replies: seq<Reply>) returns (v2: bool, k: nat)
    requires Initialize(s, cfg, replies).outcome == Done(Ok(()))
    ensures k >= 1
    ensures v2 <==> Initialize(s, cfg, replies).session.version != V1SC
    ensures Initialize(s, cfg, replies).issued ==
      [Frame(Cmd(GoIdleState), 0, NoResponse), Frame(Cmd(SendIfCond), SendIfCondPattern, ShortResponse)] +
      Rounds(v2, k) + Closing(Initialize(s, cfg, replies).session.rca, cfg)
  {
    var j;
    v2, j := RunInitLog(AwaitGoIdle, s, cfg, replies);
    k := j + 1;
    var run := RunInit(AwaitGoIdle, s, cfg, replies);
    var rca := run.session.rca;
    ExpectedFromOpCond(v2, v2, j, rca, cfg);
    var e3 := Expected(AwaitOpCond(v2), v2, j, rca, cfg);
    var e2 := Expected(AwaitAppCmd(v2), v2, j, rca, cfg);
    assert e2 == [Frame(ACmd(SdSendOpCond), OpCondArg(v2), ShortResponse)] + e3;
    var e1 := Expected(AwaitIfCond, v2, j, rca, cfg);
    assert e1 == [Frame(Cmd(AppCmd), 0, ShortResponse)] + e2;
    assert run.issued == [Frame(Cmd(SendIfCond), SendIfCondPattern, ShortResponse)] + e1;
    assert Initialize(s, cfg, replies).issued == [Frame(Cmd(GoIdleState), 0, NoResponse)] + run.issued;
    assert Rounds(v2, k) == OpCondRound(v2) + Rounds(v2, j);
    LogShape(Frame(Cmd(GoIdleState), 0, NoResponse), Frame(Cmd(SendIfCond), SendIfCondPattern, ShortResponse),
      Frame(Cmd(AppCmd), 0, ShortResponse), Frame(ACmd(SdSendOpCond), OpCondArg(v2), ShortResponse),
      Rounds(v2, j), Closing(rca, cfg));
    FirstOpCondFrame(AwaitGoIdle, s, cfg, replies);
    assert run.issued[2] == Frame(ACmd(SdSendOpCond), OpCondArg(v2), ShortResponse);
    OpCondArgInjective(v2, run.session.version != V1SC);
  }

  /** Regrouping the log: single commands in front, then the rounds, then the closing commands. */
  lemma LogShape(a: Frame, b: Frame, c: Frame, d: Frame, r: seq<Frame>, t: seq<Frame>)
    ensures [a] + ([b] + ([c] + ([d] + (r + t)))) == [a, b] + ([c, d] + r) + t
  {
  }
}
