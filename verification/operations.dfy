/**
 * Single-block data transfers. Starting a transfer sends READ_BLOCK
 * or WRITE_BLOCK and, once the card has accepted it, marks the host busy;
 * the completion poll hands the host back and classifies how the data
 * phase went. The DMA channel and data-path registers the driver programs
 * on the way are not modelled.
 */
module Operations {
  import opened SdTypes
  import opened Transport
  import opened Host

  /** The direction of a block transfer. */
  datatype Direction = Read | Write

  /** The data command of a direction. */
  function DataCommand(d: Direction): (c: Command)
    ensures c == ReadBlock <==> d == Read
    ensures c == WriteBlock <==> d == Write
  {
    match d
    case Read => ReadBlock
    case Write => WriteBlock
  }

  /** The host state while a transfer in a direction is in progress. */
  function BusyState(d: Direction): (b: State)
    ensures b == Reading <==> d == Read
    ensures b == Writing <==> d == Write
  {
    match d
    case Read => Reading
    case Write => Writing
  }

  /** The frame that starts a transfer: the block index is the argument. */
  function DataFrame(d: Direction, address: bv32): (f: Frame)
    ensures f.opcode == Cmd(DataCommand(d)) && f.arg == address && f.response == ShortResponse
  {
    Frame(Cmd(DataCommand(d)), address, ShortResponse)
  }

  /**
   * The session after a call, whether the call has returned (and with what),
   * and the commands it sent.
   */
  datatype Transfer = Transfer(session: Session, outcome: Poll<Result<()>>, issued: seq<Frame>)

  /**
   * Starting a transfer over the polls of its data command. A host that is
   * not Ready refuses without sending anything; otherwise the command is
   * sent and the host becomes busy only once the card has answered it with
   * its own index. The session is untouched otherwise.
   */
  function StartTransfer(s: Session, d: Direction, address: bv32, polls: seq<Reply>): (t: Transfer)
    ensures CheckReady(s).Err? ==> t == Transfer(s, Done(Err(CheckReady(s).error)), [])
    ensures CheckReady(s).Ok? ==> t.issued == [DataFrame(d, address)]
    ensures t.outcome == Done(Ok(())) <==>
      s.state == Ready && AwaitShort(DataCommand(d), polls).Done? && AwaitShort(DataCommand(d), polls).result.Ok?
    ensures t.outcome == Done(Ok(())) ==> t.session == s.(state := BusyState(d))
    ensures t.outcome != Done(Ok(())) ==> t.session == s
    ensures t.outcome == Pending <==> s.state == Ready && AwaitShort(DataCommand(d), polls) == Pending
    ensures forall e :: t.outcome == Done(Err(e)) <==>
      CheckReady(s) == Err(e) || (s.state == Ready && AwaitShort(DataCommand(d), polls) == Done(Err(e)))
  {
    match CheckReady(s)
    case Err(e) => Transfer(s, Done(Err(e)), [])
    case Ok(_) =>
      var frame := DataFrame(d, address);
      match AwaitShort(DataCommand(d), polls)
      case Pending => Transfer(s, Pending, [frame])
      case Done(Err(e)) => Transfer(s, Done(Err(e)), [frame])
      case Done(Ok(_)) => Transfer(s.(state := BusyState(d)), Done(Ok(())), [frame])
  }

  /** Reading one block: on success the host is Reading; a refusal or a failed command changes nothing. */
  function ReadBlockCall(s: Session, address: bv32, polls: seq<Reply>): (t: Transfer)
    ensures t.outcome == Done(Ok(())) ==> s.state == Ready && t.session == s.(state := Reading)
    ensures t.outcome != Done(Ok(())) ==> t.session == s
    ensures s.state != Ready ==> t.outcome.Done? && t.outcome.result.Err? && t.issued == []
    ensures s.state == Ready ==> t.issued == [Frame(Cmd(ReadBlock), address, ShortResponse)]
    ensures t.outcome == Done(Ok(())) <==>
      s.state == Ready && AwaitShort(ReadBlock, polls).Done? && AwaitShort(ReadBlock, polls).result.Ok?
    ensures s.state != Ready ==> t.outcome == Done(CheckReady(s))
  {
    StartTransfer(s, Read, address, polls)
  }

  /** Writing one block: on success the host is Writing; a refusal or a failed command changes nothing. */
  function WriteBlockCall(s: Session, address: bv32, polls: seq<Reply>): (t: Transfer)
    ensures t.outcome == Done(Ok(())) ==> s.state == Ready && t.session == s.(state := Writing)
    ensures t.outcome != Done(Ok(())) ==> t.session == s
    ensures s.state != Ready ==> t.outcome.Done? && t.outcome.result.Err? && t.issued == []
    ensures s.state == Ready ==> t.issued == [Frame(Cmd(WriteBlock), address, ShortResponse)]
    ensures t.outcome == Done(Ok(())) <==>
      s.state == Ready && AwaitShort(WriteBlock, polls).Done? && AwaitShort(WriteBlock, polls).result.Ok?
    ensures s.state != Ready ==> t.outcome == Done(CheckReady(s))
  {
    StartTransfer(s, Write, address, polls)
  }

  /**
   * How a finished data phase went: a data CRC failure wins over a data
   * timeout, which wins over a receive overrun, then a send underrun; a
   * transfer that did not signal both data end and block end is unknown.
   */
  function DataOutcome(st: Status): (r: Result<()>)
    ensures r == Err(CRCFail) <==> st.dcrcfail
    ensures r == Err(Timeout) <==> !st.dcrcfail && st.dtimeout
    ensures r == Err(ReceiveOverrun) <==> !st.dcrcfail && !st.dtimeout && st.rxoverr
    ensures r == Err(SendUnderrun) <==> !st.dcrcfail && !st.dtimeout && !st.rxoverr && st.txunderr
    ensures r == Err(UnknownResult) <==>
      !st.dcrcfail && !st.dtimeout && !st.rxoverr && !st.txunderr && !(st.dataend && st.dbckend)
    ensures r == Ok(()) <==>
      !st.dcrcfail && !st.dtimeout && !st.rxoverr && !st.txunderr && st.dataend && st.dbckend
  {
    if st.dcrcfail then Err(CRCFail)
    else if st.dtimeout then Err(Timeout)
    else if st.rxoverr then Err(ReceiveOverrun)
    else if st.txunderr then Err(SendUnderrun)
    else if !st.dataend || !st.dbckend then Err(UnknownResult)
    else Ok(())
  }

  /** The data flags that decide a finished transfer. */
  predicate SameDataFlags(a: Status, b: Status)
  {
    a.dcrcfail == b.dcrcfail && a.dtimeout == b.dtimeout && a.rxoverr == b.rxoverr &&
    a.txunderr == b.txunderr && a.dataend == b.dataend && a.dbckend == b.dbckend
  }

  /** The command flags never influence how a data phase is classified. */
  lemma DataOutcomeIgnoresCommandFlags(a: Status, b: Status)
    requires SameDataFlags(a, b)
    ensures DataOutcome(a) == DataOutcome(b)
  {
  }

  /** The session after a completion poll, and what the poll returns. */
  datatype Completion = Completion(session: Session, outcome: Poll<Result<()>>)

  /** Whether the data path is still moving data in the direction the host is busy with. */
  predicate StillActive(s: Session, st: Status)
  {
    (s.state == Reading && st.rxact) || (s.state == Writing && st.txact)
  }

  /**
   * One poll of a transfer in progress. An uninitialised host reports so;
   * a transfer whose data path is still active is Pending; otherwise the
   * host is Ready again and the data flags decide the result. Polling a
   * Ready host is a programming error the driver panics on.
   */
  function PollResult(s: Session, st: Status): (c: Completion)
    requires s.state != Ready
    ensures s.state == State.Uninitialized ==> c == Completion(s, Done(Err(Error.Uninitialized)))
    ensures c.outcome == Pending <==> StillActive(s, st)
    ensures c.outcome == Pending ==> c.session == s
    ensures s.state != State.Uninitialized && !StillActive(s, st) ==>
      c == Completion(s.(state := Ready), Done(DataOutcome(st)))
    ensures c.session.state == Ready || c.session == s
  {
    match s.state
    case Uninitialized => Completion(s, Done(Err(Error.Uninitialized)))
    case Reading =>
      if st.rxact then Completion(s, Pending) else Completion(s.(state := Ready), Done(DataOutcome(st)))
    case Writing =>
      if st.txact then Completion(s, Pending) else Completion(s.(state := Ready), Done(DataOutcome(st)))
  }

  /**
   * Waiting for a transfer over successive polls: the first poll that
   * settles it decides, and while every poll so far shows the data path
   * active the call is Pending.
   */
  function AwaitCompletion(s: Session, polls: seq<Status>): (c: Completion)
    requires s.state == Reading || s.state == Writing
    decreases |polls|
  {
    if |polls| == 0 then Completion(s, Pending)
    else
      var c := PollResult(s, polls[0]);
      if c.outcome == Pending then AwaitCompletion(s, polls[1..]) else c
  }

  /**
   * A busy host settles back to Ready exactly when some poll shows its data
   * path idle, and then the outcome is that of the first such poll; until
   * then nothing about the session changes.
   */
  lemma {:induction false} AwaitCompletionSettles(s: Session, polls: seq<Status>)
    requires s.state == Reading || s.state == Writing
    ensures AwaitCompletion(s, polls).outcome == Pending <==>
      forall j :: 0 <= j < |polls| ==> StillActive(s, polls[j])
    ensures AwaitCompletion(s, polls).outcome == Pending ==> AwaitCompletion(s, polls).session == s
    ensures AwaitCompletion(s, polls).outcome.Done? ==>
      AwaitCompletion(s, polls).session == s.(state := Ready) &&
      exists i :: 0 <= i < |polls| && !StillActive(s, polls[i]) &&
        AwaitCompletion(s, polls).outcome == Done(DataOutcome(polls[i])) &&
        forall j :: 0 <= j < i ==> StillActive(s, polls[j])
    decreases |polls|
  {
    if |polls| > 0 {
      var c := PollResult(s, polls[0]);
      if c.outcome == Pending {
        AwaitCompletionSettles(s, polls[1..]);
        var r := AwaitCompletion(s, polls[1..]);
        if r.outcome.Done? {
          var i :| 0 <= i < |polls[1..]| && !StillActive(s, polls[1..][i]) &&
            r.outcome == Done(DataOutcome(polls[1..][i])) &&
            forall j :: 0 <= j < i ==> StillActive(s, polls[1..][j]);
          assert polls[i + 1] == polls[1..][i];
          forall j | 0 <= j < i + 1
            ensures StillActive(s, polls[j])
          {
            if j > 0 {
              assert polls[j] == polls[1..][j - 1];
            }
          }
        } else {
          forall j | 0 <= j < |polls|
            ensures StillActive(s, polls[j])
          {
            if j > 0 {
              assert polls[j] == polls[1..][j - 1];
            }
          }
        }
      }
    }
  }
}
