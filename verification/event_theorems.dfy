// What every run keeps of the NOTIFYs that one key's subscriptions put on the wire.
module EventTheorems {
  import opened Wrappers
  import opened EventSubscription

  // ---- one session: the counter, the send lock and the loop agree ----

  ghost predicate Orderly(x: Session, now: int) {
    && x.notifySeq < WORD
    && (x.flight.Some? ==>
          && x.flight.value.number == x.begun && x.flight.value.cseq == x.notifySeq
          && x.flight.value.copies <= 2 && (x.flight.value.copies > 0 ==> Buildable(x.flight.value.cseq))
          && (x.flight.value.kind.Final? ==> x.loop.Ending?))
    && (x.loop.Ending? ==> !Live(x, now))
    && (x.loop.Waiting? && !x.wake && x.reason.None? ==> x.loop.deadline == x.expires)
  }

  // No sender is left and none can start again.
  predicate Dead(x: Session, now: int) {
    x.loop.Done? && x.flight.None? && !Live(x, now)
  }

  // Recording a result leaves the counter, the locks and the loop alone and never clears a reason.
  lemma RecordKeeps(x: Session, outcome: Outcome)
    ensures var y := RecordResult(x, outcome);
            y == x.(failures := y.failures, reason := y.reason, wake := y.wake) && (x.reason.Some? ==> y.reason.Some?)
    ensures var y := RecordPlaceholder(x, outcome);
            y == x.(failures := y.failures, reason := y.reason, wake := y.wake, force := y.force) && (x.reason.Some? ==> y.reason.Some?)
  {
  }

  // The end of a send frees the send lock and moves the counter up to the last number used.
  lemma FinishKeeps(x: Session, outcome: Outcome)
    ensures var y := DoFinish(x, outcome);
            y == x
            || (&& x.flight.Some? && Answerable(x.flight.value, outcome) && y.flight.None?
                && y.tag == x.tag && y.expires == x.expires && y.remoteSeq == x.remoteSeq && y.generation == x.generation
                && y.begun == x.begun && y.wrapped == x.wrapped
                && y.notifySeq == (if LastCSeq(x.flight.value) > x.notifySeq then LastCSeq(x.flight.value) else x.notifySeq)
                && y.loop == (if x.flight.value.kind.Final? then Done else if x.flight.value.kind.Data? then x.loop else Resting)
                && (x.reason.Some? ==> y.reason.Some?))
  {
    if x.flight.Some? && Answerable(x.flight.value, outcome) {
      var f := x.flight.value;
      var y := x.(flight := None, notifySeq := if LastCSeq(f) > x.notifySeq then LastCSeq(f) else x.notifySeq);
      RecordKeeps(y, outcome);
      hide RecordResult, RecordPlaceholder, Answerable;
      assert DoFinish(x, outcome)
          == match f.kind
             case Final => y.(loop := Done)
             case Data => if x.generation == f.generation then RecordResult(y, outcome) else y
             case Placeholder => (if x.generation == f.generation then RecordPlaceholder(y, outcome) else y).(loop := Resting);
    }
  }

  lemma ActKeepsOrderly(x: Session, now: int, closed: bool, a: Action)
    requires Orderly(x, now)
    ensures Orderly(Acted(x, now, closed, a), now)
    ensures Dead(x, now) ==> Dead(Acted(x, now, closed, a), now)
    ensures var y := Acted(x, now, closed, a); y.loop.Done? && !x.loop.Done? ==> closed || Dead(y, now)
  {
    if a.Finish? {
      FinishKeeps(x, a.outcome);
    }
    hide DoFinish;
  }

  // The counter cannot wrap before 2^31 sends.
  ghost predicate Counted(x: Session) {
    && (!x.wrapped ==> x.notifySeq + (if x.flight.Some? then 1 else 0) <= 2 * x.begun)
    && (x.wrapped ==> x.begun >= CSEQ_LIMIT)
  }

  lemma ActKeepsCounted(x: Session, now: int, closed: bool, a: Action)
    requires Orderly(x, now) && Counted(x)
    ensures Counted(Acted(x, now, closed, a)) && Acted(x, now, closed, a).begun >= x.begun
    ensures x.wrapped ==> Acted(x, now, closed, a).wrapped
  {
    if a.Finish? {
      FinishKeeps(x, a.outcome);
    }
    hide DoFinish;
  }

  // ---- the wire ----

  // The highest CSeq that this session may have used so far.
  function Top(x: Session): int {
    if x.flight.Some? then x.flight.value.cseq + x.flight.value.copies - 1 else x.notifySeq
  }

  predicate Finishing(x: Session, number: nat) {
    x.flight.Some? && x.flight.value.kind.Final? && x.flight.value.number == number
  }

  // What a session knows of the messages it has sent.
  ghost predicate Remembers(x: Session, now: int, id: nat, wire: seq<Notify>) {
    forall m :: m in wire && m.session == id ==> Known(x, now, m)
  }

  predicate Known(x: Session, now: int, m: Notify) {
    && m.number <= x.begun && (!x.wrapped ==> m.cseq <= Top(x)) && (m.final ==> Dead(x, now) || Finishing(x, m.number))
    && (x.flight.Some? && m.number == x.flight.value.number ==> x.flight.value.cseq <= m.cseq <= Top(x))
  }

  lemma ActRemembers(x: Session, now: int, closed: bool, id: nat, a: Action, wire: seq<Notify>)
    requires Orderly(x, now) && Remembers(x, now, id, wire)
    ensures Remembers(Acted(x, now, closed, a), now, id, wire + Sent(x, id, a))
  {
    ActKeepsOrderly(x, now, closed, a);
    ActKeepsTop(x, now, closed, a);
    var y := Acted(x, now, closed, a);
    hide Acted, Orderly;
    forall m | m in wire && m.session == id ensures Known(y, now, m) {
      assert Known(x, now, m);
    }
    if a.Transmit? && CanTransmit(x) {
      assert Sent(x, id, a) == [Notify(id, x.flight.value.number, x.flight.value.cseq + x.flight.value.copies, x.flight.value.kind.Final?)];
    }
  }

  lemma ActKeepsTop(x: Session, now: int, closed: bool, a: Action)
    requires Orderly(x, now)
    ensures var y := Acted(x, now, closed, a);
            && y.begun >= x.begun && (x.wrapped ==> y.wrapped) && (!y.wrapped ==> Top(y) >= Top(x))
            && (x.flight.Some? && x.flight.value.kind.Final? ==>
                  Dead(y, now) || (y.flight.Some? && y.flight.value.kind.Final? && y.flight.value.number == x.flight.value.number))
            && (y.flight.Some? ==>
                  (x.flight.None? && y.begun == x.begun + 1) ||
                  (x.flight.Some? && y.flight.value.cseq == x.flight.value.cseq && y.flight.value.number == x.flight.value.number))
            && (a.Transmit? && CanTransmit(x) ==> y == x.(flight := Some(x.flight.value.(copies := x.flight.value.copies + 1))))
  {
    if a.Finish? {
      FinishKeeps(x, a.outcome);
    }
    hide DoFinish;
  }

  // One session's messages: ascending CSeq, and nothing but a digest retry after the final one.
  ghost predicate InOrder(wire: seq<Notify>, sessions: seq<Session>) {
    forall i, j :: 0 <= i < j < |wire| ==>
      && wire[i].session <= wire[j].session < |sessions|
      && (wire[i].session == wire[j].session ==>
            && (!sessions[wire[j].session].wrapped ==> wire[i].cseq < wire[j].cseq)
            && wire[i].number <= wire[j].number && (wire[i].number == wire[j].number ==> wire[j].cseq == wire[i].cseq + 1)
            && (wire[i].final ==> wire[j].final && wire[j].number == wire[i].number))
  }

  ghost predicate Sane(x: Session, now: int, id: nat, wire: seq<Notify>) {
    Orderly(x, now) && Counted(x) && Remembers(x, now, id, wire)
  }

  // A key is free for a new session only after the last one can send no more.
  ghost predicate Retired(s: System) {
    && (forall k :: 0 <= k < |s.sessions| - 1 ==> Dead(s.sessions[k], s.clock))
    && (!s.closed && |s.sessions| > 0 && s.sessions[|s.sessions| - 1].loop.Done? ==> Dead(s.sessions[|s.sessions| - 1], s.clock))
  }

  ghost predicate Inv(s: System) {
    && (forall k :: 0 <= k < |s.sessions| ==> Sane(s.sessions[k], s.clock, k, s.wire))
    && (forall m :: m in s.wire ==> m.session < |s.sessions|)
    && Retired(s) && InOrder(s.wire, s.sessions)
  }

  lemma SendKeepsOrder(s: System, id: nat, a: Action)
    requires Inv(s) && id < |s.sessions|
    ensures InOrder(Step(s, Act(id, a)).wire, Step(s, Act(id, a)).sessions)
  {
    var x := s.sessions[id];
    assert Sane(x, s.clock, id, s.wire);
    var y := Acted(x, s.clock, s.closed, a);
    ActKeepsTop(x, s.clock, s.closed, a);
    hide Acted, Counted, Orderly;
    var sent := Sent(x, id, a);
    if sent != [] {
      assert id == |s.sessions| - 1;
      forall i | 0 <= i < |s.wire| && s.wire[i].session == id
        ensures (!y.wrapped ==> s.wire[i].cseq < sent[0].cseq) && (s.wire[i].final ==> sent[0].final && sent[0].number == s.wire[i].number)
        ensures s.wire[i].number <= sent[0].number && (s.wire[i].number == sent[0].number ==> sent[0].cseq == s.wire[i].cseq + 1)
      {
        assert s.wire[i] in s.wire;
      }
    }
  }

  lemma ActKeepsSane(s: System, id: nat, a: Action, k: nat)
    requires Inv(s) && id < |s.sessions| && k < |s.sessions|
    ensures var t := Step(s, Act(id, a)); Sane(t.sessions[k], t.clock, k, t.wire)
  {
    var x := s.sessions[k];
    assert Sane(x, s.clock, k, s.wire);
    if k == id {
      ActKeepsOrderly(x, s.clock, s.closed, a);
      ActKeepsCounted(x, s.clock, s.closed, a);
      ActRemembers(x, s.clock, s.closed, id, a, s.wire);
    }
    hide Acted, Orderly, Counted, InOrder;
  }

  lemma ActKeepsRetired(s: System, id: nat, a: Action)
    requires Inv(s) && id < |s.sessions|
    ensures Retired(Step(s, Act(id, a)))
  {
    assert Sane(s.sessions[id], s.clock, id, s.wire);
    ActKeepsOrderly(s.sessions[id], s.clock, s.closed, a);
    hide Acted, Orderly, Counted, InOrder, Remembers;
  }

  lemma StepKeepsInv(s: System, e: Event)
    requires Inv(s)
    ensures Inv(Step(s, e))
  {
    match e
    case Tick(_) =>
      hide InOrder, Counted;
    case Shutdown =>
    case Subscribe(remote, seconds, tag, _) =>
      assert Counted(Opened(tag, remote, seconds, s.clock));
      hide Counted;
    case Act(id, a) =>
      if id < |s.sessions| {
        forall k | 0 <= k < |s.sessions| ensures var t := Step(s, e); Sane(t.sessions[k], t.clock, k, t.wire) {
          ActKeepsSane(s, id, a, k);
        }
        ActKeepsRetired(s, id, a);
        SendKeepsOrder(s, id, a);
        hide Acted, Sane, Retired, InOrder;
      }
  }

  // ---- theorems over every run ----

  lemma {:induction false} RunKeepsInv(s: System, events: seq<Event>)
    requires Inv(s)
    ensures Inv(Run(s, events))
    decreases |events|
  {
    hide Inv, Step;
    if events != [] {
      StepKeepsInv(s, events[0]);
      RunKeepsInv(Step(s, events[0]), events[1..]);
    }
  }

  // Within one subscription CSeq ascends for its first 2^31 sends, and after the terminated NOTIFY
  // only that request's own digest retry may follow; a later subscription of the key starts after that.
  lemma {:induction false} NotifiesInOrder(clock: int, events: seq<Event>, i: nat, j: nat)
    requires i < j < |Run(Init(clock), events).wire|
    ensures var s := Run(Init(clock), events);
            var a, b := s.wire[i], s.wire[j];
            && a.session <= b.session < |s.sessions|
            && (a.session == b.session ==>
                  && (s.sessions[a.session].begun < CSEQ_LIMIT ==> a.cseq < b.cseq)
                  && (a.final ==> b.final && b.number == a.number && b.cseq == a.cseq + 1))
  {
    RunKeepsInv(Init(clock), events);
    var s := Run(Init(clock), events);
    assert s.wire[j] in s.wire;
    var x := s.sessions[s.wire[j].session];
    assert Sane(x, s.clock, s.wire[j].session, s.wire);
    hide Run, Remembers, Orderly;
  }

  // One SendNotify call puts at most two requests on the wire, so a subscription is terminated by at most
  // one request and its retry.
  lemma {:induction false} AtMostOneRetry(clock: int, events: seq<Event>, i: nat, j: nat, k: nat)
    requires i < j < k < |Run(Init(clock), events).wire|
    ensures var w := Run(Init(clock), events).wire;
            w[i].session == w[k].session ==> w[i].number != w[k].number && !w[i].final
  {
    RunKeepsInv(Init(clock), events);
    var s := Run(Init(clock), events);
    hide Run, Sane, Retired;
    assert InOrder(s.wire, s.sessions);
    if s.wire[i].session == s.wire[k].session {
      assert s.wire[i].session <= s.wire[j].session <= s.wire[k].session;
      assert s.wire[i].number <= s.wire[j].number <= s.wire[k].number;
    }
  }

  // The expiry timer ends a subscription that is still live exactly when its loop waits for a deadline that has
  // passed, and then a renewal's wake-up is pending.
  lemma {:induction false} TimerEndsLiveOnlyBeforeWakeUp(clock: int, events: seq<Event>, id: nat)
    requires id < |Run(Init(clock), events).sessions|
    requires Live(Run(Init(clock), events).sessions[id], Run(Init(clock), events).clock)
    ensures var s := Run(Init(clock), events);
            var x := s.sessions[id];
            var ends := Acted(x, s.clock, s.closed, TimerFires).reason == Some(Timeout);
            && (ends <==> x.loop.Waiting? && x.loop.deadline <= s.clock)
            && (ends ==> x.wake)
  {
    RunKeepsInv(Init(clock), events);
    var s := Run(Init(clock), events);
    assert Sane(s.sessions[id], s.clock, id, s.wire);
  }

  lemma RunUnfolds(s: System, events: seq<Event>)
    requires events != []
    ensures Run(s, events) == Run(Step(s, events[0]), events[1..])
    ensures |events| == 1 ==> Run(s, events) == Step(s, events[0])
  {
  }
}
