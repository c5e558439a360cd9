/**
 * The driver as a whole: a sequence of calls on one host, each with the
 * polls it sees, and what the sequence does to the session. A call that
 * panics, or a blocking call whose polls run out before it returns, halts
 * the sequence: nothing after it can run.
 */
module Device {
  import opened SdTypes
  import opened Transport
  import opened Host
  import opened Init
  import opened Operations

  /** A call on the host, with the status polls it observes. */
  datatype Call =
    | InitCall(replies: seq<Reply>)
    | ReadCall(address: bv32, readPolls: seq<Reply>)
    | WriteCall(address: bv32, writePolls: seq<Reply>)
    | ResultCall(status: Status)
    | CardSizeCall

  /** The host after a call: Live if the call came back to its caller, Halted otherwise. */
  datatype Machine = Live(session: Session) | Halted(session: Session)

  /** The state changes a call may make. */
  predicate Edge(call: Call, before: State, after: State)
  {
    before == after ||
    (call.InitCall? && after == Ready) ||
    (call.ReadCall? && before == Ready && after == Reading) ||
    (call.WriteCall? && before == Ready && after == Writing) ||
    (call.ResultCall? && (before == Reading || before == Writing) && after == Ready)
  }

  /** One call. A non-blocking completion poll that is still pending returns to its caller. */
  function Apply(s: Session, cfg: Config, call: Call): (m: Machine)
    ensures Edge(call, s.state, m.session.state)
    ensures m.Halted? <==>
      (call.ResultCall? && s.state == Ready) ||
      (call.InitCall? && Initialize(s, cfg, call.replies).outcome == Pending) ||
      (call.ReadCall? && ReadBlockCall(s, call.address, call.readPolls).outcome == Pending) ||
      (call.WriteCall? && WriteBlockCall(s, call.address, call.writePolls).outcome == Pending)
  {
    match call
    case InitCall(replies) =>
      InitReadyOnSuccess(s, cfg, replies);
      var r := Initialize(s, cfg, replies);
      if r.outcome == Pending then Halted(r.session) else Live(r.session)
    case ReadCall(address, polls) =>
      var t := ReadBlockCall(s, address, polls);
      if t.outcome == Pending then Halted(t.session) else Live(t.session)
    case WriteCall(address, polls) =>
      var t := WriteBlockCall(s, address, polls);
      if t.outcome == Pending then Halted(t.session) else Live(t.session)
    case ResultCall(st) =>
      if s.state == Ready then Halted(s) else Live(PollResult(s, st).session)
    case CardSizeCall =>
      Live(s)
  }

  /** A sequence of calls, stopping at the first that does not come back. */
  function Run(s: Session, cfg: Config, calls: seq<Call>): (m: Machine)
    decreases |calls|
  {
    if |calls| == 0 then Live(s)
    else
      match Apply(s, cfg, calls[0])
      case Halted(s') => Halted(s')
      case Live(s') => Run(s', cfg, calls[1..])
  }

  /** One call keeps the relative address aligned: only initialisation assigns it. */
  lemma ApplyRcaAligned(s: Session, cfg: Config, call: Call)
    requires RcaAligned(s)
    ensures RcaAligned(Apply(s, cfg, call).session)
  {
    if call.InitCall? {
      InitRcaAligned(s, cfg, call.replies);
    }
  }

  /** Every sequence of calls keeps the relative address aligned. */
  lemma {:induction false} RunRcaAligned(s: Session, cfg: Config, calls: seq<Call>)
    requires RcaAligned(s)
    ensures RcaAligned(Run(s, cfg, calls).session)
    decreases |calls|
  {
    if |calls| > 0 {
      ApplyRcaAligned(s, cfg, calls[0]);
      if Apply(s, cfg, calls[0]).Live? {
        RunRcaAligned(Apply(s, cfg, calls[0]).session, cfg, calls[1..]);
      }
    }
  }

  /** From construction on, the relative address the host sends always has its low half clear. */
  lemma NewRunRcaAligned(cfg: Config, calls: seq<Call>)
    ensures RcaAligned(Run(New(), cfg, calls).session)
  {
    RunRcaAligned(New(), cfg, calls);
  }

  /** An initialised host never becomes uninitialised again. */
  lemma {:induction false} RunStaysInitialised(s: Session, cfg: Config, calls: seq<Call>)
    requires s.state != State.Uninitialized
    ensures Run(s, cfg, calls).session.state != State.Uninitialized
    decreases |calls|
  {
    if |calls| > 0 && Apply(s, cfg, calls[0]).Live? {
      RunStaysInitialised(Apply(s, cfg, calls[0]).session, cfg, calls[1..]);
    }
  }

  /** Only an initialisation that returns success takes a host out of the uninitialised state. */
  lemma LeavingUninitialised(s: Session, cfg: Config, call: Call)
    requires s.state == State.Uninitialized
    requires Apply(s, cfg, call).session.state != State.Uninitialized
    ensures call.InitCall? && Initialize(s, cfg, call.replies).outcome == Done(Ok(()))
    ensures Apply(s, cfg, call) == Live(Initialize(s, cfg, call.replies).session)
    ensures Apply(s, cfg, call).session.state == Ready
  {
    if call.InitCall? {
      InitReadyOnSuccess(s, cfg, call.replies);
    }
  }

  /** While a transfer is in progress, starting another is refused with Busy and sends nothing. */
  lemma BusyRefusesTransfers(s: Session, address: bv32, polls: seq<Reply>)
    requires s.state == Reading || s.state == Writing
    ensures ReadBlockCall(s, address, polls) == Transfer(s, Done(Err(Busy)), [])
    ensures WriteBlockCall(s, address, polls) == Transfer(s, Done(Err(Busy)), [])
  {
  }

  /** While a transfer is in progress the driver refuses to hand back the peripherals. */
  lemma BusyRefusesFree(s: Session)
    requires s.state == Reading || s.state == Writing
    ensures !Free(s)
  {
  }
}
