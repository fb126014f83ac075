// The subscriptions that an upstream opens under one Call-ID, remote tag and event kind.
// Every action below is one section of code that holds the session's state lock, or one
// transmission made while its send lock is held; a sender that holds the send lock shows
// as the session's `flight`.
module EventSubscription {
  import opened Wrappers

  const SECOND: int := 1_000_000_000
  const CSEQ_LIMIT: nat := 0x8000_0000
  const WORD: nat := 0x1_0000_0000
  const MAX_FAILURES: nat := 3

  datatype Reason = Timeout | NoResource | Deactivated

  datatype Kind = Placeholder | Data | Final

  // A SendNotify call; `copies` counts its transmissions, the second being the digest retry.
  datatype Flight = Flight(kind: Kind, number: nat, cseq: nat, generation: nat, copies: nat)

  // Where the session's own goroutine stands.
  datatype Loop = Head | Notifying | Resting | Waiting(deadline: int) | Ending | Done

  // With the key, `tag` names the dialog; `begun` counts the calls of SendNotify, and `wrapped` records an overflow
  // of the 32-bit CSeq counter.
  datatype Session = Session(tag: nat, expires: int, remoteSeq: nat, notifySeq: nat, reason: Option<Reason>, generation: nat,
                             force: bool, failures: nat, wake: bool, loop: Loop, flight: Option<Flight>,
                             begun: nat, wrapped: bool)

  datatype Notify = Notify(session: nat, number: nat, cseq: nat, final: bool)

  datatype System = System(clock: int, closed: bool, sessions: seq<Session>, wire: seq<Notify>)

  datatype Outcome = Success | ClientError | DeadlineExceeded | OtherFailure

  datatype Action =
    | ReadState
    | BeginPlaceholder
    | BeginData
    | BeginFinal
    | Transmit
    | Finish(outcome: Outcome)
    | Refresh(tag: nat, remote: nat, seconds: nat)
    | Deactivate
    | WakeUp
    | RestOver
    | TimerFires
    | Quit

  // A SUBSCRIBE outside a session keeps the To tag that it carries; without one, the response draws a tag.
  datatype Event = Tick(clock: int) | Subscribe(remote: nat, seconds: nat, tag: nat, kept: bool) | Act(id: nat, action: Action) | Shutdown

  predicate Live(x: Session, now: int) {
    x.reason.None? && now < x.expires
  }

  function Opened(tag: nat, remote: nat, seconds: nat, now: int): Session {
    Session(tag, now + seconds * SECOND, remote, 0, None, 1, true, 0, false, Head, None, 0, false)
  }

  // run: the top of the loop.
  function DoReadState(x: Session, now: int): Session {
    if !x.loop.Head? then x
    else if x.reason.Some? || x.expires <= now then x.(loop := Ending)
    else if x.force then x.(loop := Notifying)
    else x.(loop := Waiting(x.expires))
  }

  // Taking the send lock and the next CSeq of the 32-bit counter.
  function TakeOff(x: Session, kind: Kind): Session {
    var cseq := (x.notifySeq + 1) % WORD;
    x.(notifySeq := cseq, begun := x.begun + 1, wrapped := x.wrapped || cseq == 0,
       flight := Some(Flight(kind, x.begun + 1, cseq, x.generation, 0)))
  }

  function DoBeginPlaceholder(x: Session, now: int): Session {
    if !x.loop.Notifying? || x.flight.Some? then x
    else if x.reason.Some? || !x.force || x.expires <= now then x.(loop := Resting)
    else TakeOff(x, Placeholder)
  }

  // The guard shared by broadcast and deliverAlarmNotify.
  function DoBeginData(x: Session, now: int): Session {
    if x.flight.Some? || !Live(x, now) then x else TakeOff(x, Data)
  }

  function DoBeginFinal(x: Session): Session {
    if !x.loop.Ending? || x.flight.Some? then x else TakeOff(x, Final)
  }

  // BuildNotify refuses these numbers before anything is sent.
  predicate Buildable(cseq: nat) {
    0 < cseq < CSEQ_LIMIT
  }

  predicate CanTransmit(x: Session) {
    x.flight.Some? && x.flight.value.copies < 2 && Buildable(x.flight.value.cseq)
  }

  function DoTransmit(x: Session): Session {
    if CanTransmit(x) then x.(flight := Some(x.flight.value.(copies := x.flight.value.copies + 1))) else x
  }

  function LastCSeq(f: Flight): nat {
    if f.copies == 2 then f.cseq + 1 else f.cseq
  }

  function RecordResult(x: Session, outcome: Outcome): Session {
    if outcome.Success? then x.(failures := 0)
    else if outcome.ClientError? || outcome.DeadlineExceeded? || x.failures + 1 >= MAX_FAILURES
    then x.(failures := x.failures + 1, reason := Some(NoResource), wake := true)
    else x.(failures := x.failures + 1)
  }

  // A 4xx answer to the empty placeholder stops the placeholder, not the subscription.
  function RecordPlaceholder(x: Session, outcome: Outcome): Session {
    if outcome.ClientError? then x.(failures := x.failures + 1, force := false)
    else
      var y := RecordResult(x, outcome);
      y.(force := !outcome.Success? && y.reason.None?)
  }

  // A status needs a transmission; a refused number is a local failure.
  predicate Answerable(f: Flight, outcome: Outcome) {
    (f.copies == 0 ==> !outcome.Success? && !outcome.ClientError?) && (!Buildable(f.cseq) ==> outcome.OtherFailure?)
  }

  function DoFinish(x: Session, outcome: Outcome): Session {
    if x.flight.None? || !Answerable(x.flight.value, outcome) then x
    else
      var f := x.flight.value;
      var y := x.(flight := None, notifySeq := if LastCSeq(f) > x.notifySeq then LastCSeq(f) else x.notifySeq);
      match f.kind
      case Final => y.(loop := Done)
      case Data => if x.generation == f.generation then RecordResult(y, outcome) else y
      case Placeholder => (if x.generation == f.generation then RecordPlaceholder(y, outcome) else y).(loop := Resting)
  }

  // A SUBSCRIBE within the dialog; its CSeq is a 32-bit number.
  predicate Refreshable(x: Session, now: int, tag: nat, remote: nat) {
    tag == x.tag && Live(x, now) && x.remoteSeq < remote < WORD
  }

  function DoRefresh(x: Session, now: int, tag: nat, remote: nat, seconds: nat): Session {
    if !Refreshable(x, now, tag, remote) then x
    else
      x.(generation := x.generation + 1, remoteSeq := remote, expires := now + seconds * SECOND, force := true,
         reason := if seconds == 0 then Some(Timeout) else x.reason, wake := true)
  }

  function DoTimer(x: Session, now: int): Session {
    if !x.loop.Waiting? || now < x.loop.deadline then x
    else x.(loop := Head, reason := if x.reason.None? then Some(Timeout) else x.reason)
  }

  function Acted(x: Session, now: int, closed: bool, a: Action): Session {
    match a
    case ReadState => DoReadState(x, now)
    case BeginPlaceholder => DoBeginPlaceholder(x, now)
    case BeginData => DoBeginData(x, now)
    case BeginFinal => DoBeginFinal(x)
    case Transmit => DoTransmit(x)
    case Finish(outcome) => DoFinish(x, outcome)
    case Refresh(tag, remote, seconds) => DoRefresh(x, now, tag, remote, seconds)
    case Deactivate => x.(reason := Some(Deactivated), wake := true)
    case WakeUp => if (x.loop.Resting? || x.loop.Waiting?) && x.wake then x.(loop := Head, wake := false) else x
    case RestOver => if x.loop.Resting? then x.(loop := Head) else x
    case TimerFires => DoTimer(x, now)
    case Quit => if closed && (x.loop.Resting? || x.loop.Waiting?) then x.(loop := Done) else x
  }

  function Sent(x: Session, id: nat, a: Action): seq<Notify> {
    if a.Transmit? && CanTransmit(x)
    then [Notify(id, x.flight.value.number, x.flight.value.cseq + x.flight.value.copies, x.flight.value.kind.Final?)]
    else []
  }

  // A drawn tag is not one of an earlier dialog.
  predicate Accepts(s: System, remote: nat, seconds: nat, tag: nat, kept: bool) {
    && !s.closed && seconds > 0 && 0 < remote < WORD
    && (|s.sessions| > 0 ==> s.sessions[|s.sessions| - 1].loop.Done?)
    && (kept || forall k :: 0 <= k < |s.sessions| ==> s.sessions[k].tag != tag)
  }

  function Step(s: System, e: Event): System {
    match e
    case Tick(clock) => if clock > s.clock then s.(clock := clock) else s
    case Shutdown => s.(closed := true)
    case Subscribe(remote, seconds, tag, kept) =>
      if Accepts(s, remote, seconds, tag, kept) then s.(sessions := s.sessions + [Opened(tag, remote, seconds, s.clock)]) else s
    case Act(id, a) =>
      if id >= |s.sessions| then s
      else s.(sessions := s.sessions[id := Acted(s.sessions[id], s.clock, s.closed, a)], wire := s.wire + Sent(s.sessions[id], id, a))
  }

  function Run(s: System, events: seq<Event>): System
    decreases |events|
  {
    if events == [] then s else Run(Step(s, events[0]), events[1..])
  }

  function Init(clock: int): System {
    System(clock, false, [], [])
  }
}
