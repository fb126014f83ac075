// What a session does after one of its NOTIFYs was turned down for good.
module EventRejections {
  import opened Wrappers
  import opened EventSubscription
  import opened EventTheorems

  // An answer that ends the subscription of a data NOTIFY: a rejection, a missed deadline or the third failure.
  predicate EndsData(failures: nat, outcome: Outcome) {
    outcome.ClientError? || outcome.DeadlineExceeded? || (outcome.OtherFailure? && failures >= 2)
  }

  // A session with a reason sends no more than its terminated NOTIFY.
  ghost predicate Shut(s: System, id: nat) {
    && id < |s.sessions| && s.sessions[id].reason.Some?
    && (s.sessions[id].flight.Some? ==> s.sessions[id].flight.value.kind.Final?)
  }

  lemma ActKeepsShut(x: Session, now: int, closed: bool, a: Action)
    requires x.reason.Some? && (x.flight.Some? ==> x.flight.value.kind.Final?)
    ensures var y := Acted(x, now, closed, a);
            y.reason.Some? && (y.flight.Some? ==> y.flight.value.kind.Final?) && y.remoteSeq == x.remoteSeq && y.generation == x.generation
  {
    if a.Finish? {
      FinishKeeps(x, a.outcome);
    }
    hide DoFinish;
  }

  ghost predicate OnlyFinal(wire: seq<Notify>, from: nat, id: nat) {
    forall k :: from <= k < |wire| && wire[k].session == id ==> wire[k].final
  }

  lemma StepKeepsShut(s: System, e: Event, id: nat, from: nat)
    requires Shut(s, id) && OnlyFinal(s.wire, from, id)
    ensures Shut(Step(s, e), id) && OnlyFinal(Step(s, e).wire, from, id)
    ensures Step(s, e).sessions[id].remoteSeq == s.sessions[id].remoteSeq
  {
    if e.Act? && e.id == id {
      ActKeepsShut(s.sessions[id], s.clock, s.closed, e.action);
    }
    hide Acted;
  }

  lemma {:induction false} RunKeepsShut(s: System, events: seq<Event>, id: nat, from: nat)
    requires Shut(s, id) && OnlyFinal(s.wire, from, id)
    ensures Shut(Run(s, events), id) && OnlyFinal(Run(s, events).wire, from, id)
    ensures Run(s, events).sessions[id].remoteSeq == s.sessions[id].remoteSeq
    decreases |events|
  {
    if events != [] {
      StepKeepsShut(s, events[0], id, from);
      hide Step, Shut, OnlyFinal;
      RunKeepsShut(Step(s, events[0]), events[1..], id, from);
    }
  }

  lemma FinishEnds(x: Session, outcome: Outcome)
    requires x.flight.Some? && x.flight.value.kind.Data? && x.flight.value.generation == x.generation && Answerable(x.flight.value, outcome)
    ensures var y := DoFinish(x, outcome);
            y.flight.None? && y.failures == (if outcome.Success? then 0 else x.failures + 1)
            && (if EndsData(x.failures, outcome) then y.reason == Some(NoResource) && y.wake else y.reason == x.reason && y.wake == x.wake)
  {
  }

  // When a data NOTIFY of an unchanged generation is rejected, misses its deadline or is the third failure, the session
  // gets the reason noresource and a wake-up at once; in every continuation it accepts no renewal and sends nothing
  // but its terminated NOTIFY. With any other answer it stays as live as it was.
  lemma {:induction false} RejectedSendsNoMore(s: System, id: nat, outcome: Outcome, after: seq<Event>)
    requires id < |s.sessions| && s.sessions[id].flight.Some?
    requires var f := s.sessions[id].flight.value; f.kind.Data? && f.generation == s.sessions[id].generation && Answerable(f, outcome)
    ensures var t := Step(s, Act(id, Finish(outcome)));
            var x, y := s.sessions[id], t.sessions[id];
            if outcome.ClientError? || outcome.DeadlineExceeded? || (outcome.OtherFailure? && x.failures >= 2) then
              var u := Run(t, after);
              && y.reason == Some(NoResource) && y.wake
              && id < |u.sessions| && u.sessions[id].reason.Some? && u.sessions[id].remoteSeq == y.remoteSeq
              && (u.sessions[id].flight.Some? ==> u.sessions[id].flight.value.kind.Final?)
              && (forall k :: |t.wire| <= k < |u.wire| && u.wire[k].session == id ==> u.wire[k].final)
            else y.reason == x.reason && y.wake == x.wake && y.failures == if outcome.Success? then 0 else x.failures + 1
  {
    var t := Step(s, Act(id, Finish(outcome)));
    FinishEnds(s.sessions[id], outcome);
    assert t.sessions[id] == DoFinish(s.sessions[id], outcome);
    hide DoFinish, Run, Step;
    if EndsData(s.sessions[id].failures, outcome) {
      RunKeepsShut(t, after, id, |t.wire|);
    }
  }
}
