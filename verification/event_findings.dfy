// Two runs on which a reader's first expectation of the subscriptions fails.
module EventFindings {
  import opened Wrappers
  import opened EventSubscription
  import opened EventTheorems

  // The subscription after an accepted placeholder, waiting for its expiry at ten seconds.
  function Settled(): Session {
    Session(0, 10 * SECOND, 1, 1, None, 1, false, 0, false, Waiting(10 * SECOND), None, 1, false)
  }

  function Opening(): seq<Event> {
    [Subscribe(1, 10, 0, false), Act(0, ReadState), Act(0, BeginPlaceholder), Act(0, Transmit), Act(0, Finish(Success)), Act(0, RestOver),
     Act(0, ReadState)]
  }

  lemma {:induction false} OpeningRuns()
    ensures Run(Init(0), Opening()) == System(0, false, [Settled()], [Notify(0, 1, 1, false)])
  {
    var e := Opening();
    var s1 := Step(Init(0), e[0]);
    var s2 := Step(s1, e[1]);
    var s3 := Step(s2, e[2]);
    assert s3.sessions == [Opened(0, 1, 10, 0).(loop := Notifying, notifySeq := 1, begun := 1, flight := Some(Flight(Placeholder, 1, 1, 1, 0)))];
    var s4 := Step(s3, e[3]);
    assert s4.wire == [Notify(0, 1, 1, false)];
    var s5 := Step(s4, e[4]);
    assert s5.sessions == [Opened(0, 1, 10, 0).(loop := Resting, notifySeq := 1, begun := 1, force := false)];
    var s6 := Step(s5, e[5]);
    assert Step(s6, e[6]) == System(0, false, [Settled()], [Notify(0, 1, 1, false)]);
    hide Step;
    RunUnfolds(Init(0), e); RunUnfolds(s1, e[1..]); RunUnfolds(s2, e[2..]); RunUnfolds(s3, e[3..]);
    RunUnfolds(s4, e[4..]); RunUnfolds(s5, e[5..]); RunUnfolds(s6, e[6..]);
  }

  function LateRenewal(): seq<Event> {
    [Tick(10 * SECOND - 1), Act(0, Refresh(0, 2, 3600)), Tick(10 * SECOND), Act(0, TimerFires)]
  }

  function Waited(): System {
    System(0, false, [Settled()], [Notify(0, 1, 1, false)])
  }

  lemma RenewalSteps()
    ensures var e := LateRenewal();
            var s := Step(Step(Step(Step(Waited(), e[0]), e[1]), e[2]), e[3]);
            |s.sessions| == 1 && s.sessions[0].reason == Some(Timeout)
            && s.sessions[0].remoteSeq == 2 && s.clock + 3599 * SECOND < s.sessions[0].expires
  {
    hide Run, Opening, Opened, DoFinish, DoReadState, TakeOff;
    var e := LateRenewal();
    var x := Settled().(generation := 2, remoteSeq := 2, expires := 10 * SECOND - 1 + 3600 * SECOND, force := true, wake := true);
    var s1 := Step(Waited(), e[0]);
    var s2 := Step(s1, e[1]);
    assert s2 == Waited().(clock := 10 * SECOND - 1, sessions := [x]);
    var s3 := Step(s2, e[2]);
    assert Step(s3, e[3]).sessions == [x.(loop := Head, reason := Some(Timeout))];
  }

  // A SUBSCRIBE accepted just before expiry extends the subscription by an hour, and the timer armed for the
  // previous expiry still marks it as timed out.
  lemma {:induction false} RenewedButTimedOut()
    ensures var s := Run(Run(Init(0), Opening()), LateRenewal());
            |s.sessions| == 1 && s.sessions[0].reason == Some(Timeout)
            && s.sessions[0].remoteSeq == 2 && s.clock + 3599 * SECOND < s.sessions[0].expires
  {
    OpeningRuns();
    RenewalSteps();
    hide Step, Opening, Init, Settled;
    var s, e := Waited(), LateRenewal();
    var s1 := Step(s, e[0]);
    var s2 := Step(s1, e[1]);
    var s3 := Step(s2, e[2]);
    RunUnfolds(s, e); RunUnfolds(s1, e[1..]); RunUnfolds(s2, e[2..]); RunUnfolds(s3, e[3..]);
  }

  function Ending(): seq<Event> {
    [Act(0, Deactivate), Act(0, WakeUp), Act(0, ReadState), Act(0, BeginFinal), Act(0, Transmit), Act(0, Finish(Success))]
  }

  function Ended(): System {
    System(0, false, [Settled().(reason := Some(Deactivated), loop := Done, notifySeq := 2, begun := 2)],
           [Notify(0, 1, 1, false), Notify(0, 2, 2, true)])
  }

  // The terminated NOTIFY is on its way.
  function Terminating(): System {
    System(0, false, [Settled().(reason := Some(Deactivated), loop := Loop.Ending, notifySeq := 2, begun := 2,
                                 flight := Some(Flight(Final, 2, 2, 1, 1)))], Ended().wire)
  }

  lemma TerminatingSteps()
    ensures var e := Ending(); Step(Step(Step(Step(Step(Waited(), e[0]), e[1]), e[2]), e[3]), e[4]) == Terminating()
  {
    hide Run, Opening, Opened, DoFinish, DoRefresh;
    var e := Ending();
    var s2 := Step(Step(Waited(), e[0]), e[1]);
    assert s2 == Waited().(sessions := [Settled().(reason := Some(Deactivated), loop := Head)]);
    var s3 := Step(s2, e[2]);
    assert s3 == Waited().(sessions := [Settled().(reason := Some(Deactivated), loop := Loop.Ending)]);
    var s4 := Step(s3, e[3]);
    assert s4 == Terminating().(wire := Waited().wire, sessions := [Terminating().sessions[0].(flight := Some(Flight(Final, 2, 2, 1, 0)))]);
    hide DoReadState, TakeOff;
    assert Step(s4, e[4]).sessions == Terminating().sessions;
  }

  lemma EndingSteps()
    ensures Step(Terminating(), Ending()[5]) == Ended()
  {
    hide Run, Opening, Opened, Waited, DoRefresh, DoReadState, TakeOff;
    assert Step(Terminating(), Ending()[5]).sessions == Ended().sessions;
  }

  lemma {:induction false} EndingRuns()
    ensures Run(Waited(), Ending()) == Ended()
  {
    TerminatingSteps();
    EndingSteps();
    hide Step, Waited, Ended, Terminating;
    var s, e := Waited(), Ending();
    var s1 := Step(s, e[0]);
    var s2 := Step(s1, e[1]);
    var s3 := Step(s2, e[2]);
    var s4 := Step(s3, e[3]);
    var s5 := Step(s4, e[4]);
    RunUnfolds(s, e); RunUnfolds(s1, e[1..]); RunUnfolds(s2, e[2..]); RunUnfolds(s3, e[3..]);
    RunUnfolds(s4, e[4..]); RunUnfolds(s5, e[5..]);
  }

  function Replacement(): seq<Event> {
    [Subscribe(2, 10, 0, true), Act(1, BeginData), Act(1, Transmit)]
  }

  lemma ReplacementSteps()
    ensures var e := Replacement();
            var t := Step(Step(Step(Ended(), e[0]), e[1]), e[2]);
            t.wire == Ended().wire + [Notify(1, 1, 1, false)] && |t.sessions| == 2 && t.sessions[0].tag == t.sessions[1].tag
  {
    hide Run, Opening, DoFinish, Waited;
    var e := Replacement();
    var s1 := Step(Ended(), e[0]);
    assert s1 == Ended().(sessions := Ended().sessions + [Opened(0, 2, 10, 0)]);
    var s2 := Step(s1, e[1]);
    assert |s2.sessions| == 2 && s2.sessions[1] == Opened(0, 2, 10, 0).(notifySeq := 1, begun := 1, flight := Some(Flight(Data, 1, 1, 1, 0)));
  }

  // A SUBSCRIBE that follows the terminated NOTIFY with the same To tag opens a session that numbers from 1 again
  // within the same dialog.
  lemma {:induction false} SuccessorNumbersFromOne()
    ensures var t := Run(Run(Run(Init(0), Opening()), Ending()), Replacement());
            && t.wire == [Notify(0, 1, 1, false), Notify(0, 2, 2, true), Notify(1, 1, 1, false)]
            && |t.sessions| == 2 && t.sessions[0].tag == t.sessions[1].tag
  {
    OpeningRuns();
    EndingRuns();
    ReplacementSteps();
    hide Step, Opening, Init, Settled;
    var s, e := Ended(), Replacement();
    var s1 := Step(s, e[0]);
    var s2 := Step(s1, e[1]);
    RunUnfolds(s, e); RunUnfolds(s1, e[1..]); RunUnfolds(s2, e[2..]);
  }
}
