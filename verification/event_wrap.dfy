// The 32-bit CSeq counter: it wraps only after 2^31 - 6 renewals, because a number that no request can carry is a
// failure that only a renewal during the send leaves unrecorded.
module EventWrap {
  import opened Wrappers
  import opened EventSubscription
  import opened EventTheorems

  // ---- each number past the limit is paid for ----

  // What a session can have spent on numbers past the limit: one for each renewal, and a few on its way out.
  function Ration(x: Session): nat {
    (if x.flight.Some? then x.flight.value.generation + 1 else x.generation)
    + (if x.failures > 3 then 3 else x.failures)
    + (if x.reason.None? then 0 else if x.flight.Some? && !x.flight.value.kind.Final? then 1 else 2)
    + (if x.loop.Done? then 1 else 0)
  }

  ghost predicate Rationed(x: Session) {
    && x.generation > 0
    && (x.flight.Some? ==> 0 < x.flight.value.generation <= x.generation && (x.flight.value.kind.Placeholder? ==> x.loop.Notifying?))
    && (if x.wrapped then x.generation + 6 >= CSEQ_LIMIT else x.notifySeq + 1 <= CSEQ_LIMIT + Ration(x))
  }

  lemma TakeOffKeepsRationed(x: Session, kind: Kind)
    requires Rationed(x) && x.flight.None? && x.notifySeq < WORD
    requires kind.Placeholder? ==> x.loop.Notifying?
    requires kind.Final? || x.reason.None?
    ensures Rationed(TakeOff(x, kind))
  {
  }

  // A number past the limit is a failure, so its result uses up a failure, a reason or the session.
  lemma FinishKeepsRationed(x: Session, now: int, outcome: Outcome)
    requires Orderly(x, now) && Rationed(x) && x.flight.Some? && Answerable(x.flight.value, outcome)
    ensures Rationed(DoFinish(x, outcome))
  {
    var f := x.flight.value;
    var y := x.(flight := None, notifySeq := if LastCSeq(f) > x.notifySeq then LastCSeq(f) else x.notifySeq);
    FinishKeeps(x, outcome);
    if f.cseq >= CSEQ_LIMIT {
      assert outcome.OtherFailure? && y.notifySeq == x.notifySeq;
    }
  }

  lemma ActKeepsRationed(x: Session, now: int, closed: bool, a: Action)
    requires Orderly(x, now) && Rationed(x)
    ensures Rationed(Acted(x, now, closed, a))
  {
    match a
    case BeginPlaceholder =>
      if x.loop.Notifying? && x.flight.None? && x.reason.None? {
        TakeOffKeepsRationed(x, Placeholder);
      }
      hide TakeOff, DoFinish;
    case BeginData =>
      if x.flight.None? && Live(x, now) {
        TakeOffKeepsRationed(x, Data);
      }
      hide TakeOff, DoFinish;
    case BeginFinal =>
      if x.flight.None? {
        TakeOffKeepsRationed(x, Final);
      }
      hide TakeOff, DoFinish;
    case Finish(outcome) =>
      if x.flight.Some? && Answerable(x.flight.value, outcome) {
        FinishKeepsRationed(x, now, outcome);
      }
      hide TakeOff, Rationed;
    case _ =>
      hide TakeOff, DoFinish;
  }

  ghost predicate AllRationed(s: System) {
    forall k :: 0 <= k < |s.sessions| ==> Rationed(s.sessions[k])
  }

  lemma StepKeepsRationed(s: System, e: Event)
    requires Inv(s) && AllRationed(s)
    ensures AllRationed(Step(s, e))
  {
    if e.Act? && e.id < |s.sessions| {
      assert Sane(s.sessions[e.id], s.clock, e.id, s.wire);
      ActKeepsRationed(s.sessions[e.id], s.clock, s.closed, e.action);
      hide Acted, Rationed, Inv;
    } else {
      hide Acted, Inv;
    }
  }

  lemma {:induction false} RunKeepsRationed(s: System, events: seq<Event>)
    requires Inv(s) && AllRationed(s)
    ensures Inv(Run(s, events)) && AllRationed(Run(s, events))
    decreases |events|
  {
    hide Inv, AllRationed, Step;
    if events != [] {
      StepKeepsInv(s, events[0]);
      StepKeepsRationed(s, events[0]);
      RunKeepsRationed(Step(s, events[0]), events[1..]);
    }
  }

  // However many NOTIFYs it sends, a subscription with fewer than 2^31 - 6 SUBSCRIBEs numbers them in ascending order.
  lemma {:induction false} FewRenewalsKeepOrder(clock: int, events: seq<Event>, i: nat, j: nat)
    requires i < j < |Run(Init(clock), events).wire|
    ensures var s := Run(Init(clock), events);
            var a, b := s.wire[i], s.wire[j];
            && a.session <= b.session < |s.sessions|
            && (a.session == b.session && s.sessions[b.session].generation + 6 < CSEQ_LIMIT ==> a.cseq < b.cseq)
  {
    RunKeepsRationed(Init(clock), events);
    var s := Run(Init(clock), events);
    assert InOrder(s.wire, s.sessions);
    hide Run, Sane, Retired, Ration;
    assert Rationed(s.sessions[s.wire[j].session]);
  }

  // ---- and with more of them it wraps ----

  ghost predicate Climbing(s: System, n: nat) {
    && |s.sessions| == 1 && !s.closed && s.clock == 0 && |s.wire| > 0 && s.wire[0] == Notify(0, 1, 1, false)
    && var x := s.sessions[0];
       && x.tag == 0 && x.notifySeq == n && x.flight.None? && x.failures == 0 && Live(x, 0)
       && x.generation > 0 && x.remoteSeq == if n < CSEQ_LIMIT then 1 else n - CSEQ_LIMIT + 2
  }

  function SendOne(): seq<Event> {
    [Act(0, BeginData), Act(0, Transmit), Act(0, Finish(Success))]
  }

  // One more number: delivered, or past the limit and excused by a renewal.
  function Climb(n: nat): seq<Event> {
    if n + 1 < CSEQ_LIMIT then SendOne()
    else [Act(0, BeginData), Act(0, Refresh(0, n + 3 - CSEQ_LIMIT, 10)), Act(0, Finish(OtherFailure))]
  }

  lemma RunThree(s: System, a: Event, b: Event, c: Event)
    ensures Run(s, [a, b, c]) == Step(Step(Step(s, a), b), c)
  {
    hide Step;
    assert [a, b, c][1..] == [b, c] && [b, c][1..] == [c];
    RunUnfolds(s, [a, b, c]);
    RunUnfolds(Step(s, a), [b, c]);
    RunUnfolds(Step(Step(s, a), b), [c]);
  }

  lemma SendsOne(s: System)
    requires |s.sessions| == 1 && s.sessions[0].flight.None? && Live(s.sessions[0], s.clock)
    requires Buildable((s.sessions[0].notifySeq + 1) % WORD)
    ensures var x := s.sessions[0];
            var cseq := (x.notifySeq + 1) % WORD;
            Run(s, SendOne())
            == s.(sessions := [x.(notifySeq := cseq, begun := x.begun + 1, failures := 0)],
                  wire := s.wire + [Notify(0, x.begun + 1, cseq, false)])
  {
    var e := SendOne();
    RunThree(s, e[0], e[1], e[2]);
    hide Run;
    var x := s.sessions[0];
    var s1 := Step(s, e[0]);
    assert s1.sessions == [TakeOff(x, Data)] && s1.wire == s.wire;
    var s2 := Step(s1, e[1]);
    assert s2.sessions == [DoTransmit(TakeOff(x, Data))];
    assert s2.wire == s.wire + [Notify(0, x.begun + 1, (x.notifySeq + 1) % WORD, false)];
    assert Step(s2, e[2]).wire == s2.wire;
  }

  lemma ClimbsOne(s: System, n: nat)
    requires Climbing(s, n) && 0 < n && n + 1 < WORD
    ensures Climbing(Run(s, Climb(n)), n + 1)
  {
    if n + 1 < CSEQ_LIMIT {
      SendsOne(s);
      hide Run, Step;
    } else {
      ClimbsPast(s, n);
    }
  }

  lemma ClimbsPast(s: System, n: nat)
    requires Climbing(s, n) && CSEQ_LIMIT <= n + 1 <= WORD
    ensures var t := Run(s, Climb(n));
            if n + 1 < WORD then Climbing(t, n + 1)
            else |t.sessions| == 1 && t.wire == s.wire && t.sessions[0].notifySeq == 0 && t.sessions[0].flight.None? && Live(t.sessions[0], t.clock)
  {
    var e := Climb(n);
    RunThree(s, e[0], e[1], e[2]);
    assert [e[0], e[1], e[2]] == e;
    hide Run;
    var x := s.sessions[0];
    var s1 := Step(s, e[0]);
    assert s1.sessions == [TakeOff(x, Data)] && s1.wire == s.wire;
    var s2 := Step(s1, e[1]);
    assert s2.wire == s.wire && s2.sessions[0].flight.Some? && s2.sessions[0].notifySeq == (n + 1) % WORD;
    assert Step(s2, e[2]).wire == s2.wire;
  }

  lemma {:induction false} ClimbsTo(s: System, n: nat, top: nat) returns (events: seq<Event>)
    requires Climbing(s, n) && 0 < n <= top < WORD
    ensures Climbing(Run(s, events), top)
    decreases top - n
  {
    if n == top {
      events := [];
    } else {
      ClimbsOne(s, n);
      var rest := ClimbsTo(Run(s, Climb(n)), n + 1, top);
      hide Climbing, Step;
      events := Climb(n) + rest;
      RunAppend(s, Climb(n), rest);
    }
  }

  lemma {:induction false} RunAppend(s: System, a: seq<Event>, b: seq<Event>)
    ensures Run(s, a + b) == Run(Run(s, a), b)
    decreases |a|
  {
    hide Step;
    if a == [] {
      assert a + b == b;
    } else {
      assert (a + b)[1..] == a[1..] + b;
      RunAppend(Step(s, a[0]), a[1..], b);
    }
  }

  lemma StartsClimbing()
    ensures Climbing(Run(Step(Init(0), Subscribe(1, 10, 0, false)), Climb(0)), 1)
  {
    var s := Step(Init(0), Subscribe(1, 10, 0, false));
    assert s == System(0, false, [Opened(0, 1, 10, 0)], []);
    SendsOne(s);
    hide Run, Step;
  }

  lemma WrapsAtTop(s: System)
    requires Climbing(s, WORD - 1)
    ensures var t := Run(Run(s, Climb(WORD - 1)), SendOne());
            |t.wire| > |s.wire| && t.wire[0] == s.wire[0] && t.wire[|t.wire| - 1].cseq == 1 && t.wire[|t.wire| - 1].session == 0
  {
    ClimbsPast(s, WORD - 1);
    SendsOne(Run(s, Climb(WORD - 1)));
    hide Run, Step;
  }

  // A subscription renewed during 2^31 of its sends numbers a second NOTIFY 1.
  lemma {:induction false} CounterWraps() returns (events: seq<Event>)
    ensures var w := Run(Init(0), events).wire;
            |w| > 1 && w[0] == Notify(0, 1, 1, false) && w[|w| - 1].session == 0 && w[|w| - 1].cseq == 1
  {
    var open := Subscribe(1, 10, 0, false);
    StartsClimbing();
    var s := Run(Step(Init(0), open), Climb(0));
    var climb := ClimbsTo(s, 1, WORD - 1);
    var t := Run(s, climb);
    WrapsAtTop(t);
    hide Step, Init, Climb;
    var last := SendOne();
    events := [open] + (Climb(0) + (climb + (Climb(WORD - 1) + last)));
    RunUnfolds(Init(0), events);
    assert events[1..] == Climb(0) + (climb + (Climb(WORD - 1) + last));
    RunAppend(Step(Init(0), open), Climb(0), climb + (Climb(WORD - 1) + last));
    RunAppend(s, climb, Climb(WORD - 1) + last);
    RunAppend(t, Climb(WORD - 1), last);
  }
}
