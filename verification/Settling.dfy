/** What one pass of a shutdown makes of a directly managed host, as a function of what the surroundings answer. */
module DirectShutdowns {
  import opened Basics
  import opened Hosts
  import opened Plan
  import opened Histories

  /** How an attempt to settle one directly managed host ended. */
  datatype Settling = HostSettled | RetryPending | GaveUpSafely | Broken

  /** What a pass may get to hear: a status reading, the reply to a request, and whether the host then went down. */
  datatype Answers = Answers(reading: Option<bool>, reply: Option<Disposition>, wentDown: bool)

  /** The outcome and the host's new record. */
  datatype Pass = Pass(outcome: Settling, record: HostState)

  /** A request went out and nobody has seen the host go down. */
  predicate Pending(hs: HostState) {
    hs.shutdownState == Requested || hs.shutdownState == Acknowledged || hs.shutdownState == Unverified
  }

  function SettlePass(h: HostConfig, hs: HostState, a: Answers): Pass {
    if hs.shutdownState == Completed || hs.shutdownState == NotRequired then Pass(HostSettled, hs)
    else if hs.shutdownState == Failed then Pass(GaveUpSafely, hs)
    else if Pending(hs) && !Verifiable(h) then Pass(RetryPending, hs.(shutdownState := Unverified))
    else if Pending(hs) && a.reading.None? then Pass(RetryPending, hs.(shutdownState := Unverified))
    else if Pending(hs) && !a.reading.value then Pass(HostSettled, hs.(shutdownState := Completed))
    else Pursued(h, hs, a.reply, a.wentDown)
  }

  function Pursued(h: HostConfig, hs: HostState, reply: Option<Disposition>, wentDown: bool): Pass {
    if hs.shutdownAttempts >= MAX_DIRECT_SHUTDOWN_ATTEMPTS then Pass(GaveUpSafely, hs.(shutdownState := Failed))
    else AfterReply(h, AskedOnceMore(hs), reply, wentDown)
  }

  function AskedOnceMore(hs: HostState): HostState {
    hs.(shutdownAttempts := hs.shutdownAttempts + 1, shutdownState := Requested)
  }

  /** The rest of the pass once a request is on record and its reply is in. */
  function AfterReply(h: HostConfig, hs: HostState, reply: Option<Disposition>, wentDown: bool): Pass {
    match reply
    case None =>
      if hs.shutdownAttempts >= MAX_DIRECT_SHUTDOWN_ATTEMPTS then Pass(GaveUpSafely, hs.(shutdownState := Failed))
      else Pass(RetryPending, hs.(shutdownState := Unverified))
    case Some(NothingRequired) => Pass(HostSettled, hs.(shutdownState := NotRequired))
    case Some(ManagedByNut) => Pass(Broken, hs)
    case Some(DirectRequested) =>
      if !Verifiable(h) then Pass(HostSettled, hs.(shutdownState := Acknowledged))
      else if wentDown then Pass(HostSettled, hs.(shutdownState := Completed))
      else Pass(RetryPending, hs.(shutdownState := Unverified))
  }

  /** Only `h`'s record differs, and it is the pass's. */
  predicate Became(h: HostConfig, before: HostStates, after: HostStates, pass: Pass) {
    Record(after, h.id) == pass.record && (after == before || after == before[h.id := pass.record])
  }

  // ---------------------------------------------------------------- what a pass promises

  /**
   * How a pass leaves the host's record, and nobody else's: settled, still to be verified, or failed for good
   * once the attempts are used up. At most one attempt was added.
   */
  predicate RecordSettled(h: HostConfig, before: HostStates, after: HostStates, outcome: Settling) {
    var hs0, hs := Record(before, h.id), Record(after, h.id);
    && (after == before || after == before[h.id := hs])
    && hs == hs0.(shutdownState := hs.shutdownState, shutdownAttempts := hs.shutdownAttempts)
    && hs0.shutdownAttempts <= hs.shutdownAttempts <= hs0.shutdownAttempts + 1
    && match outcome
       case HostSettled => Settled(h, after)
       case RetryPending => hs.shutdownState == Unverified
       case GaveUpSafely => hs.shutdownState == Failed && (hs0.shutdownState == Failed || hs.shutdownAttempts >= MAX_DIRECT_SHUTDOWN_ATTEMPTS)
       case Broken => true
  }

  lemma PassSettles(h: HostConfig, before: HostStates, after: HostStates, a: Answers)
    requires Became(h, before, after, SettlePass(h, Record(before, h.id), a))
    ensures RecordSettled(h, before, after, SettlePass(h, Record(before, h.id), a).outcome)
  {
  }

  // ---------------------------------------------------------------- getting past a host

  /** The host needs nothing more, or a request may still be sent, or what an earlier one did can be observed. */
  predicate GetsPast(h: HostConfig, hs: HostState) {
    if Pending(hs) then Verifiable(h)
    else
      || hs.shutdownState == Completed || hs.shutdownState == NotRequired
      || (Untouched(hs) && hs.shutdownAttempts < MAX_DIRECT_SHUTDOWN_ATTEMPTS)
  }

  /** A pass can get past a host, given the right answers, exactly under that condition. */
  lemma SomeAnswersGetPast(h: HostConfig, hs: HostState)
    ensures GetsPast(h, hs) <==> exists a :: SettlePass(h, hs, a).outcome == HostSettled
  {
    if GetsPast(h, hs) {
      assert SettlePass(h, hs, Answers(Some(false), Some(NothingRequired), false)).outcome == HostSettled;
    }
  }

  /** A request was sent to a host nobody can observe, and the pass that sent it is over. */
  predicate HeldUp(h: HostConfig, states: HostStates) {
    Direct(h) && !Verifiable(h) && Pending(Record(states, h.id))
  }

  /** Whatever the answers, the shutdown cannot get past such a host, which stays as it is. */
  lemma HeldUpStays(h: HostConfig, before: HostStates, after: HostStates, a: Answers)
    requires HeldUp(h, before) && Became(h, before, after, SettlePass(h, Record(before, h.id), a))
    ensures SettlePass(h, Record(before, h.id), a).outcome == RetryPending && HeldUp(h, after)
    ensures !GetsPast(h, Record(before, h.id))
  {
  }

  ghost predicate AllHeldUpStay(hosts: seq<HostConfig>, before: HostStates, after: HostStates) {
    forall h :: h in hosts && HeldUp(h, before) ==> HeldUp(h, after)
  }

  /** Some directly managed host cannot be got past. */
  predicate Obstructed(hosts: seq<HostConfig>, states: HostStates) {
    exists h :: h in hosts && Direct(h) && !GetsPast(h, Record(states, h.id))
  }
}
