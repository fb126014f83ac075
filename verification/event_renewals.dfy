// When an accepted renewal does not keep a subscription from timing out: exactly when the loop already waits
// for an earlier deadline.
module EventRenewals {
  import opened Wrappers
  import opened EventSubscription
  import opened EventTheorems

  predicate Unrenewed(events: seq<Event>, id: nat) {
    forall k :: 0 <= k < |events| ==> !(events[k].Act? && events[k].id == id && events[k].action.Refresh?)
  }

  // The expiry timer fires now and ends a subscription that has not expired.
  ghost predicate TimesOutLive(s: System, id: nat) {
    id < |s.sessions| && Live(s.sessions[id], s.clock) && Step(s, Act(id, TimerFires)).sessions[id].reason == Some(Timeout)
  }

  // Until it leaves the wait in which the renewal found it, the loop waits for the old deadline.
  ghost predicate Armed(s: System, id: nat, expires: int, loop: Loop) {
    && id < |s.sessions| && s.sessions[id].expires == expires
    && (s.sessions[id].loop.Waiting? ==> s.sessions[id].loop == loop || s.sessions[id].loop.deadline == expires)
  }

  lemma ActKeepsArmed(x: Session, now: int, closed: bool, a: Action)
    requires !a.Refresh?
    ensures var y := Acted(x, now, closed, a);
            y.expires == x.expires && (y.loop.Waiting? ==> y.loop == x.loop || y.loop.deadline == y.expires)
  {
    if a.Finish? {
      FinishKeeps(x, a.outcome);
    }
    hide DoFinish;
  }

  lemma StepKeepsArmed(s: System, e: Event, id: nat, expires: int, loop: Loop)
    requires Armed(s, id, expires, loop) && Unrenewed([e], id)
    ensures Armed(Step(s, e), id, expires, loop) && Step(s, e).clock >= s.clock
  {
    assert [e][0] == e;
    if e.Act? && e.id == id {
      ActKeepsArmed(s.sessions[id], s.clock, s.closed, e.action);
    }
    hide Acted;
  }

  lemma {:induction false} RunKeepsArmed(s: System, events: seq<Event>, id: nat, expires: int, loop: Loop)
    requires Armed(s, id, expires, loop) && Unrenewed(events, id)
    ensures Armed(Run(s, events), id, expires, loop) && Run(s, events).clock >= s.clock
    decreases |events|
  {
    if events != [] {
      assert Unrenewed([events[0]], id) && Unrenewed(events[1..], id);
      StepKeepsArmed(s, events[0], id, expires, loop);
      hide Armed, Step, Unrenewed;
      RunKeepsArmed(Step(s, events[0]), events[1..], id, expires, loop);
    }
  }

  lemma TimerNeedsDeadline(s: System, id: nat)
    requires TimesOutLive(s, id)
    ensures s.sessions[id].loop.Waiting? && s.sessions[id].loop.deadline <= s.clock < s.sessions[id].expires
  {
  }

  lemma TimerFiresEarly(s: System, id: nat, now: int)
    requires id < |s.sessions| && Live(s.sessions[id], now) && s.clock <= now
    requires s.sessions[id].loop.Waiting? && s.sessions[id].loop.deadline <= now
    ensures Unrenewed([Tick(now)], id) && TimesOutLive(Run(s, [Tick(now)]), id)
  {
    RunUnfolds(s, [Tick(now)]);
  }

  // A renewed subscription can still be timed out before its new expiry, without another SUBSCRIBE, if and only if
  // the renewal met the loop waiting for a deadline before that expiry.
  lemma {:induction false} RenewedTimesOutExactly(s: System, id: nat, tag: nat, remote: nat, seconds: nat)
    requires id < |s.sessions| && Refreshable(s.sessions[id], s.clock, tag, remote)
    ensures var t := Step(s, Act(id, Refresh(tag, remote, seconds)));
            (exists after :: Unrenewed(after, id) && TimesOutLive(Run(t, after), id))
            <==> seconds > 0 && s.sessions[id].loop.Waiting? && s.sessions[id].loop.deadline < s.clock + seconds * SECOND
  {
    var t := Step(s, Act(id, Refresh(tag, remote, seconds)));
    var loop, expires := s.sessions[id].loop, s.clock + seconds * SECOND;
    assert t.clock == s.clock && t.sessions[id].loop == loop && t.sessions[id].expires == expires;
    assert seconds > 0 ==> t.sessions[id].reason.None?;
    assert Armed(t, id, expires, loop);
    hide Run, Step, TimesOutLive, Unrenewed;
    forall after | Unrenewed(after, id) && TimesOutLive(Run(t, after), id)
      ensures seconds > 0 && loop.Waiting? && loop.deadline < expires
    {
      RunKeepsArmed(t, after, id, expires, loop);
      TimerNeedsDeadline(Run(t, after), id);
    }
    if seconds > 0 && loop.Waiting? && loop.deadline < expires {
      TimerFiresEarly(t, id, if loop.deadline < s.clock then s.clock else loop.deadline);
    }
  }
}
