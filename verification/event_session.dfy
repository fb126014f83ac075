// The session object itself: each method is one section of code under the session's locks,
// proved to act as its step in EventSubscription.
module EventSession {
  import opened Wrappers
  import opened EventSubscription

  // What the end of a send leaves, field by field: the lock is free, the counter is at the last number used, and the
  // result counts only for an unchanged generation. A rejection ends a subscription for data, and stops the placeholder.
  predicate Settled(x: Session, y: Session, outcome: Outcome)
    requires x.flight.Some?
  {
    var f := x.flight.value;
    var last := if f.copies == 2 then f.cseq + 1 else f.cseq;
    var counts := x.generation == f.generation && !f.kind.Final?;
    var ends := (outcome.ClientError? && f.kind.Data?) || outcome.DeadlineExceeded? || (outcome.OtherFailure? && x.failures >= 2);
    && y.flight.None? && y.notifySeq == (if last > x.notifySeq then last else x.notifySeq)
    && y.loop == (if f.kind.Final? then Done else if f.kind.Placeholder? then Resting else x.loop)
    && y.tag == x.tag && y.expires == x.expires && y.remoteSeq == x.remoteSeq && y.generation == x.generation
    && y.failures == (if !counts then x.failures else if outcome.Success? then 0 else x.failures + 1)
    && y.reason == (if counts && ends then Some(NoResource) else x.reason)
    && y.wake == ((counts && ends) || x.wake)
    && y.force == (if !counts || f.kind.Data? then x.force
                   else (outcome.DeadlineExceeded? || outcome.OtherFailure?) && !ends && x.reason.None?)
  }

  lemma FinishSettles(x: Session, outcome: Outcome)
    requires x.flight.Some? && Answerable(x.flight.value, outcome)
    ensures Settled(x, DoFinish(x, outcome), outcome)
  {
  }

  // The session with its send lock free again.
  function Freed(x: Session): Session
    requires x.flight.Some?
  {
    x.(flight := None, notifySeq := if LastCSeq(x.flight.value) > x.notifySeq then LastCSeq(x.flight.value) else x.notifySeq)
  }

  lemma FreedKeeps(x: Session)
    requires x.flight.Some?
    ensures Freed(x).generation == x.generation
  {
  }

  lemma FinishCases(x: Session, outcome: Outcome)
    requires x.flight.Some? && Answerable(x.flight.value, outcome)
    ensures DoFinish(x, outcome)
            == match x.flight.value.kind
               case Final => Freed(x).(loop := Done)
               case Data => if x.generation == x.flight.value.generation then RecordResult(Freed(x), outcome) else Freed(x)
               case Placeholder =>
                 (if x.generation == x.flight.value.generation then RecordPlaceholder(Freed(x), outcome) else Freed(x)).(loop := Resting)
  {
    hide RecordResult, RecordPlaceholder, Answerable;
  }

  class Subscription {
    var tag: nat
    var expires: int
    var remoteSeq: nat
    var notifySeq: nat
    var reason: Option<Reason>
    var generation: nat
    var force: bool
    var failures: nat
    var wake: bool
    var loop: Loop
    var flight: Option<Flight>
    var begun: nat
    var wrapped: bool

    function State(): Session
      reads this
    {
      Session(tag, expires, remoteSeq, notifySeq, reason, generation, force, failures, wake, loop, flight, begun, wrapped)
    }

    constructor (tag: nat, remote: nat, seconds: nat, now: int)
      ensures State() == Opened(tag, remote, seconds, now)
      ensures this.tag == tag && expires == now + seconds * 1_000_000_000 && remoteSeq == remote && notifySeq == 0 && reason.None?
      ensures generation == 1 && force && failures == 0 && !wake && loop.Head? && flight.None? && begun == 0
    {
      this.tag := tag;
      expires := now + seconds * SECOND;
      remoteSeq, notifySeq, reason, generation := remote, 0, None, 1;
      force, failures, wake, loop := true, 0, false, Head;
      flight, begun, wrapped := None, 0, false;
    }

    // The number of the next NOTIFY, from the 32-bit counter.
    method NextSeq(kind: Kind) returns (cseq: nat)
      requires notifySeq < WORD
      modifies this`notifySeq, this`begun, this`wrapped, this`flight
      ensures State() == TakeOff(old(State()), kind) && cseq == notifySeq < WORD
      ensures !wrapped ==> cseq == old(notifySeq) + 1
      ensures cseq == (old(notifySeq) + 1) % 0x1_0000_0000 && flight == Some(Flight(kind, old(begun) + 1, cseq, generation, 0))
    {
      if notifySeq == WORD - 1 {
        notifySeq := 0;
        wrapped := true;
      } else {
        notifySeq := notifySeq + 1;
      }
      cseq := notifySeq;
      begun := begun + 1;
      flight := Some(Flight(kind, begun, cseq, generation, 0));
    }

    // notifyActive up to SendNotify.
    method BeginActive(now: int) returns (cseq: Option<nat>)
      requires loop.Notifying? && flight.None? && notifySeq < WORD
      modifies this
      ensures State() == DoBeginPlaceholder(old(State()), now)
      ensures cseq.Some? <==> old(reason).None? && now < old(expires) && old(force)
      ensures if cseq.Some? then
                cseq.value == (old(notifySeq) + 1) % 0x1_0000_0000 && loop == old(loop)
                && flight == Some(Flight(Placeholder, old(begun) + 1, cseq.value, old(generation), 0))
              else flight.None? && loop.Resting? && notifySeq == old(notifySeq)
      ensures expires == old(expires) && reason == old(reason) && generation == old(generation) && force == old(force) && failures == old(failures)
    {
      if reason.Some? || !force || now >= expires {
        loop := Resting;
        return None;
      }
      var next := NextSeq(Placeholder);
      return Some(next);
    }

    // broadcast and deliverAlarmNotify up to SendNotify.
    method BeginEvent(now: int) returns (cseq: Option<nat>)
      requires flight.None? && notifySeq < WORD
      modifies this
      ensures State() == DoBeginData(old(State()), now)
      ensures cseq.Some? <==> old(reason).None? && now < old(expires)
      ensures if cseq.Some? then
                cseq.value == (old(notifySeq) + 1) % 0x1_0000_0000
                && flight == Some(Flight(Data, old(begun) + 1, cseq.value, old(generation), 0))
              else State() == old(State())
      ensures expires == old(expires) && reason == old(reason) && generation == old(generation) && loop == old(loop)
      ensures force == old(force) && failures == old(failures)
    {
      if reason.Some? || now >= expires {
        return None;
      }
      var next := NextSeq(Data);
      return Some(next);
    }

    method RecordNotifyResult(outcome: Outcome)
      modifies this`failures, this`reason, this`wake
      ensures State() == RecordResult(old(State()), outcome)
      ensures var ends := outcome.ClientError? || outcome.DeadlineExceeded? || (outcome.OtherFailure? && old(failures) >= 2);
              && failures == (if outcome.Success? then 0 else old(failures) + 1)
              && reason == (if ends then Some(NoResource) else old(reason))
              && wake == (ends || old(wake))
    {
      if outcome.Success? {
        failures := 0;
        return;
      }
      failures := failures + 1;
      if outcome.ClientError? || outcome.DeadlineExceeded? || failures >= 3 {
        reason := Some(NoResource);
        wake := true;
      }
    }

    method RecordPlaceholderNotifyResult(outcome: Outcome) returns (again: bool)
      modifies this`failures, this`reason, this`wake
      ensures State().(force := again) == RecordPlaceholder(old(State()), outcome)
      ensures var ends := outcome.DeadlineExceeded? || (outcome.OtherFailure? && old(failures) >= 2);
              && failures == (if outcome.Success? then 0 else old(failures) + 1)
              && reason == (if ends then Some(NoResource) else old(reason))
              && wake == (ends || old(wake))
              && (again <==> (outcome.DeadlineExceeded? || outcome.OtherFailure?) && !ends && old(reason).None?)
    {
      if outcome.Success? {
        failures := 0;
        return false;
      }
      failures := failures + 1;
      if outcome.ClientError? {
        return false;
      }
      if outcome.DeadlineExceeded? || failures >= 3 {
        reason := Some(NoResource);
        wake := true;
      }
      return reason.None?;
    }

    // The counter follows the last number that was used.
    method FreeSendLock()
      requires flight.Some?
      modifies this`flight, this`notifySeq
      ensures State() == Freed(old(State()))
    {
      var last := LastCSeq(flight.value);
      flight := None;
      if last > notifySeq {
        notifySeq := last;
      }
    }

    // notifyActive with the result of SendNotify.
    method EndActive(outcome: Outcome)
      requires flight.Some? && flight.value.kind.Placeholder? && Answerable(flight.value, outcome)
      modifies this
      ensures State() == DoFinish(old(State()), outcome) && Settled(old(State()), State(), outcome)
    {
      ghost var x := State();
      FinishSettles(x, outcome);
      FinishCases(x, outcome);
      hide DoFinish, RecordPlaceholder, Answerable, Settled, Freed;
      var sent := flight.value.generation;
      FreeSendLock();
      FreedKeeps(x);
      if generation == sent {
        force := RecordPlaceholderNotifyResult(outcome);
      }
      loop := Resting;
    }

    // broadcast and deliverAlarmNotify with the result of SendNotify.
    method EndEvent(outcome: Outcome)
      requires flight.Some? && flight.value.kind.Data? && Answerable(flight.value, outcome)
      modifies this
      ensures State() == DoFinish(old(State()), outcome) && Settled(old(State()), State(), outcome)
    {
      ghost var x := State();
      FinishSettles(x, outcome);
      FinishCases(x, outcome);
      hide DoFinish, RecordResult, Answerable, Settled, Freed;
      var sent := flight.value.generation;
      FreeSendLock();
      FreedKeeps(x);
      if generation == sent {
        RecordNotifyResult(outcome);
      }
    }

    // terminate with the result of SendNotify.
    method EndTerminated(outcome: Outcome)
      requires flight.Some? && flight.value.kind.Final? && Answerable(flight.value, outcome)
      modifies this
      ensures State() == DoFinish(old(State()), outcome) && Settled(old(State()), State(), outcome)
    {
      ghost var x := State();
      FinishSettles(x, outcome);
      FinishCases(x, outcome);
      hide DoFinish, Answerable, Settled, Freed;
      FreeSendLock();
      loop := Done;
    }

    // refresh; a reply that cannot be sent leaves the session as it was.
    method RefreshDialog(now: int, to: nat, remote: nat, seconds: nat, replied: bool) returns (status: nat)
      requires remote < WORD
      modifies this
      ensures State() == if replied then DoRefresh(old(State()), now, to, remote, seconds) else old(State())
      ensures status == if to != tag || old(reason).Some? || old(expires) <= now then 481
                        else if remote <= old(remoteSeq) then 500 else 200
      ensures if status == 200 && replied then
                && generation == old(generation) + 1 && remoteSeq == remote && expires == now + seconds * 1_000_000_000
                && force && wake && reason == (if seconds == 0 then Some(Timeout) else None)
                && notifySeq == old(notifySeq) && failures == old(failures) && flight == old(flight) && loop == old(loop) && tag == old(tag)
              else State() == old(State())
    {
      if to != tag || reason.Some? || now >= expires {
        return 481;
      }
      if remote <= remoteSeq {
        return 500;
      }
      if !replied {
        return 200;
      }
      generation := generation + 1;
      remoteSeq := remote;
      expires := now + seconds * SECOND;
      force := true;
      if seconds == 0 {
        reason := Some(Timeout);
      }
      wake := true;
      return 200;
    }

    // The run loop between two sends: returns whether it must terminate.
    method Advance(now: int) returns (ending: bool)
      requires loop.Head?
      modifies this`loop
      ensures State() == DoReadState(old(State()), now)
      ensures ending <==> reason.Some? || expires <= now
      ensures loop == if ending then Ending else if force then Notifying else Waiting(expires)
    {
      if reason.Some? || expires <= now {
        loop := Ending;
        return true;
      }
      loop := if force then Notifying else Waiting(expires);
      return false;
    }

    // terminate up to SendNotify.
    method BeginTerminated() returns (cseq: nat)
      requires loop.Ending? && flight.None? && notifySeq < WORD
      modifies this
      ensures State() == DoBeginFinal(old(State())) && cseq == notifySeq == (old(notifySeq) + 1) % 0x1_0000_0000
      ensures flight == Some(Flight(Final, old(begun) + 1, cseq, generation, 0)) && loop == old(loop) && reason == old(reason)
    {
      cseq := NextSeq(Final);
    }

    // One transmission under the send lock: the request, or its digest retry under the next number.
    method TransmitOnce() returns (cseq: Option<nat>)
      requires flight.Some?
      modifies this`flight
      ensures State() == DoTransmit(old(State()))
      ensures cseq.Some? <==> old(flight).value.copies < 2 && 0 < old(flight).value.cseq < 0x8000_0000
      ensures cseq.Some? ==> cseq.value == old(flight).value.cseq + old(flight).value.copies
      ensures flight == if cseq.Some? then Some(old(flight).value.(copies := old(flight).value.copies + 1)) else old(flight)
    {
      var f := flight.value;
      if f.cseq == 0 || f.cseq >= CSEQ_LIMIT || f.copies >= 2 {
        return None;
      }
      flight := Some(f.(copies := f.copies + 1));
      return Some(f.cseq + f.copies);
    }

    // The expiry timer of the run loop.
    method TimerFired(now: int)
      requires loop.Waiting? && loop.deadline <= now
      modifies this`loop, this`reason
      ensures State() == DoTimer(old(State()), now)
      ensures loop.Head? && reason == (if old(reason).None? then Some(Timeout) else old(reason))
    {
      loop := Head;
      if reason.None? {
        reason := Some(Timeout);
      }
    }

    // Reload's verdict on a subscription whose platform or target is gone.
    method Revoke()
      modifies this`reason, this`wake
      ensures State() == Acted(old(State()), 0, false, Deactivate)
      ensures reason == Some(Deactivated) && wake && forall now :: !Live(State(), now)
    {
      reason := Some(Deactivated);
      wake := true;
    }
  }
}
