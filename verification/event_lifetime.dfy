// One subscription that nobody else touches, from its SUBSCRIBE to its terminated NOTIFY.
module EventLifetime {
  import opened Wrappers
  import opened EventSubscription

  lemma RunUnfolds(s: System, events: seq<Event>)
    requires events != []
    ensures Run(s, events) == Run(Step(s, events[0]), events[1..])
    ensures |events| == 1 ==> Run(s, events) == Step(s, events[0])
  {
  }

  // A SUBSCRIBE opens a session exactly for a positive expiry and a 32-bit CSeq, before shutdown, once the key's last
  // session is done; a drawn tag is new.
  lemma {:induction false} SubscribeExactly(s: System, remote: nat, seconds: nat, tag: nat, kept: bool)
    ensures var t := Step(s, Subscribe(remote, seconds, tag, kept));
            var opens := !s.closed && seconds > 0 && 0 < remote <= 0xFFFF_FFFF && (s.sessions != [] ==> s.sessions[|s.sessions| - 1].loop.Done?)
                         && (kept || forall x :: x in s.sessions ==> x.tag != tag);
            && t.wire == s.wire && t.clock == s.clock && t.closed == s.closed
            && t.sessions == s.sessions + (if opens then [Opened(tag, remote, seconds, s.clock)] else [])
  {
    assert s.sessions + [] == s.sessions;
    assert (forall x :: x in s.sessions ==> x.tag != tag) <==> (forall k :: 0 <= k < |s.sessions| ==> s.sessions[k].tag != tag);
  }

  // The events of session `id`: its placeholder is answered with success and the goroutine waits for the expiry.
  function Placed(id: nat): seq<Event> {
    [Act(id, ReadState), Act(id, BeginPlaceholder), Act(id, Transmit), Act(id, Finish(Success)), Act(id, RestOver), Act(id, ReadState)]
  }

  // The clock passes the expiry, the timer fires and the terminated NOTIFY goes out.
  function Expired(id: nat, clock: int): seq<Event> {
    [Tick(clock), Act(id, TimerFires), Act(id, ReadState), Act(id, BeginFinal), Act(id, Transmit), Act(id, Finish(Success))]
  }

  lemma {:induction false} RunJoins(s: System, a: seq<Event>, b: seq<Event>)
    ensures Run(s, a + b) == Run(Run(s, a), b)
    decreases |a|
  {
    if a == [] {
      assert a + b == b;
    } else {
      RunUnfolds(s, a);
      RunUnfolds(s, a + b);
      assert (a + b)[1..] == a[1..] + b;
      hide Step;
      RunJoins(Step(s, a[0]), a[1..], b);
    }
  }

  // The session `id` is this one; clock and shutdown are as before, and the wire has grown by `sent`.
  ghost predicate Now(s: System, t: System, id: nat, x: Session, sent: seq<Notify>) {
    && |t.sessions| == |s.sessions| && id < |t.sessions| && t.sessions[id] == x
    && t.clock == s.clock && t.closed == s.closed && t.wire == s.wire + sent
  }

  lemma ActNow(s: System, t: System, id: nat, x: Session, sent: seq<Notify>, a: Action, y: Session, more: seq<Notify>)
    requires Now(s, t, id, x, sent) && Acted(x, s.clock, s.closed, a) == y && Sent(x, id, a) == more
    ensures Now(s, Step(t, Act(id, a)), id, y, sent + more)
  {
    hide Acted, Sent;
    assert (s.wire + sent) + more == s.wire + (sent + more);
  }

  // The session after its placeholder was answered.
  function Settled(x: Session): Session {
    x.(notifySeq := 1, begun := 1, force := false, loop := Waiting(x.expires))
  }

  lemma {:induction false} PlaceholderIsSent(s: System, id: nat, remote: nat, seconds: nat, tag: nat, since: int)
    requires id < |s.sessions| && s.sessions[id] == Opened(tag, remote, seconds, since) && s.clock < since + seconds * SECOND
    ensures Now(s, Run(s, Placed(id)), id, Settled(s.sessions[id]), [Notify(id, 1, 1, false)])
  {
    var x, e := s.sessions[id], Placed(id);
    var x1 := x.(loop := Notifying);
    var x2 := x1.(notifySeq := 1, begun := 1, flight := Some(Flight(Placeholder, 1, 1, 1, 0)));
    var x3 := x2.(flight := Some(Flight(Placeholder, 1, 1, 1, 1)));
    var x4 := x2.(flight := None, force := false, loop := Resting);
    var x5 := x4.(loop := Head);
    var x6 := x4.(loop := Waiting(x.expires));
    assert s.wire == s.wire + [];
    ActNow(s, s, id, x, [], ReadState, x1, []);
    var s1 := Step(s, e[0]);
    ActNow(s, s1, id, x1, [], BeginPlaceholder, x2, []);
    var s2 := Step(s1, e[1]);
    ActNow(s, s2, id, x2, [], Transmit, x3, [Notify(id, 1, 1, false)]);
    var s3 := Step(s2, e[2]);
    ActNow(s, s3, id, x3, [Notify(id, 1, 1, false)], Finish(Success), x4, []);
    var s4 := Step(s3, e[3]);
    ActNow(s, s4, id, x4, [Notify(id, 1, 1, false)], RestOver, x5, []);
    var s5 := Step(s4, e[4]);
    ActNow(s, s5, id, x5, [Notify(id, 1, 1, false)], ReadState, x6, []);
    hide *;
    RunUnfolds(s, e); RunUnfolds(s1, e[1..]); RunUnfolds(s2, e[2..]); RunUnfolds(s3, e[3..]); RunUnfolds(s4, e[4..]); RunUnfolds(s5, e[5..]);
  }

  lemma {:induction false} ExpiryIsSent(s: System, id: nat, x: Session, clock: int)
    requires id < |s.sessions| && s.sessions[id] == Settled(x) && x.reason.None? && x.flight.None? && x.expires <= clock && s.clock < clock
    ensures var t := Run(s, Expired(id, clock));
            && id < |t.sessions| && t.wire == s.wire + [Notify(id, 2, 2, true)]
            && t.sessions[id] == x.(notifySeq := 2, begun := 2, force := false, loop := Done, reason := Some(Timeout))
  {
    var x0, e, wire := Settled(x), Expired(id, clock), [Notify(id, 2, 2, true)];
    ExpiryActs(x, id, clock, s.closed);
    var x1 := x0.(loop := Head, reason := Some(Timeout));
    var x2 := x1.(loop := Ending);
    var x3 := x2.(notifySeq := 2, begun := 2, flight := Some(Flight(Final, 2, 2, x.generation, 0)));
    var x4 := x3.(flight := Some(Flight(Final, 2, 2, x.generation, 1)));
    var x5 := x3.(flight := None, loop := Done);
    var s0 := Step(s, e[0]);
    assert s0.wire == s.wire == s.wire + [] && s0.clock == clock && s0.sessions == s.sessions && s0.closed == s.closed;
    hide Step, Run, Acted, Sent;
    ActNow(s0, s0, id, x0, [], TimerFires, x1, []);
    var s1 := Step(s0, e[1]);
    ActNow(s0, s1, id, x1, [], ReadState, x2, []);
    var s2 := Step(s1, e[2]);
    ActNow(s0, s2, id, x2, [], BeginFinal, x3, []);
    var s3 := Step(s2, e[3]);
    ActNow(s0, s3, id, x3, [], Transmit, x4, wire);
    var s4 := Step(s3, e[4]);
    ActNow(s0, s4, id, x4, wire, Finish(Success), x5, []);
    RunUnfolds(s, e); RunUnfolds(s0, e[1..]); RunUnfolds(s1, e[2..]); RunUnfolds(s2, e[3..]); RunUnfolds(s3, e[4..]); RunUnfolds(s4, e[5..]);
  }

  lemma ExpiryActs(x: Session, id: nat, now: int, closed: bool)
    requires x.reason.None? && x.flight.None? && x.expires <= now
    ensures var x0 := Settled(x);
            var x1 := x0.(loop := Head, reason := Some(Timeout));
            var x2 := x1.(loop := Ending);
            var x3 := x2.(notifySeq := 2, begun := 2, flight := Some(Flight(Final, 2, 2, x.generation, 0)));
            var x4 := x3.(flight := Some(Flight(Final, 2, 2, x.generation, 1)));
            && Acted(x0, now, closed, TimerFires) == x1 && Sent(x0, id, TimerFires) == []
            && Acted(x1, now, closed, ReadState) == x2 && Sent(x1, id, ReadState) == []
            && Acted(x2, now, closed, BeginFinal) == x3 && Sent(x2, id, BeginFinal) == []
            && Acted(x3, now, closed, Transmit) == x4 && Sent(x3, id, Transmit) == [Notify(id, 2, 2, true)]
            && Acted(x4, now, closed, Finish(Success)) == x3.(flight := None, loop := Done) && Sent(x4, id, Finish(Success)) == []
  {
  }

  // A subscription that is accepted, whose NOTIFYs succeed, and that is neither renewed nor used, sends two of them:
  // the placeholder as number 1 at once, and the terminated one as number 2 after its expiry; it ends for timeout.
  lemma {:induction false} SubscriptionRunsOut(s: System, remote: nat, seconds: nat, tag: nat, kept: bool, clock: int)
    requires Accepts(s, remote, seconds, tag, kept) && s.clock + seconds * 1_000_000_000 <= clock
    ensures var id := |s.sessions|;
            var t := Run(s, [Subscribe(remote, seconds, tag, kept)] + (Placed(id) + Expired(id, clock)));
            && t.wire == s.wire + [Notify(id, 1, 1, false), Notify(id, 2, 2, true)]
            && id < |t.sessions| && t.sessions[id].loop.Done? && t.sessions[id].reason == Some(Timeout)
  {
    var id := |s.sessions|;
    var events := [Subscribe(remote, seconds, tag, kept)] + (Placed(id) + Expired(id, clock));
    var s1 := Step(s, events[0]);
    assert s1.sessions == s.sessions + [Opened(tag, remote, seconds, s.clock)] && s1.clock == s.clock && s1.wire == s.wire;
    PlaceholderIsSent(s1, id, remote, seconds, tag, s.clock);
    var s2 := Run(s1, Placed(id));
    ExpiryIsSent(s2, id, s1.sessions[id], clock);
    hide Step, Run;
    RunUnfolds(s, events);
    RunJoins(s1, Placed(id), Expired(id, clock));
    assert events[1..] == Placed(id) + Expired(id, clock);
  }
}
