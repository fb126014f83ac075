// Runs in which a checkpoint takes effect after its lease, between another worker's SELECT and UPDATE.
module AlarmFindings {
  import opened Wrappers
  import opened AlarmOutbox
  import opened AlarmTheorems

  // A checkpoint delayed past its lease, between another worker's SELECT and UPDATE: the dialog
  // that accepted is sent to again and its recorded status changes.
  function LeadUp(): seq<Event> {
    [Select(0), ClaimRow(0), Answer(0, true, Accepted), Tick(LEASE), Select(LEASE), Save(0, LEASE - 1, NoFault)]
  }

  function Undoing(): seq<Event> {
    [ClaimRow(1), Answer(1, true, Rejected), Save(1, LEASE, NoFault)]
  }

  function AfterLeadUp(id: string): System {
    System(Row(Leased, Some(0), LEASE, 1, 0, [Target(id, Delivered)]), LEASE, 2,
           map[0 := Working(1, [Target(id, Delivered)], 1, false, false), 1 := Selected(LEASE, 1, [Target(id, Unsent)])],
           [Sending(0, 0, 1, true)], false)
  }

  // The first worker has its answer and is about to checkpoint it.
  function AfterAnswer(id: string): System {
    System(Row(Leased, Some(0), LEASE, 1, 0, [Target(id, Unsent)]), 0, 1,
           map[0 := Saving(1, [Target(id, Unsent)], 0, false, false, Delivered)], [Sending(0, 0, 1, true)], false)
  }

  lemma AnswerSteps(id: string)
    ensures var e := LeadUp(); Step(Step(Step(Init([id], 0), e[0]), e[1]), e[2]) == AfterAnswer(id)
  {
    var e := LeadUp();
    var targets := [Target(id, Unsent)];
    assert Init([id], 0).row.targets == targets;
    var s1 := Step(Init([id], 0), e[0]);
    assert s1 == System(Row(Pending, None, 0, 0, 0, targets), 0, 1, map[0 := Selected(0, 0, targets)], [], false);
    var s2 := Step(s1, e[1]);
    assert s2 == System(Row(Leased, Some(0), LEASE, 1, 0, targets), 0, 1, map[0 := Working(1, targets, 0, false, false)], [], false);
  }

  lemma LateSaveSteps(id: string)
    ensures var e := LeadUp(); Step(Step(Step(AfterAnswer(id), e[3]), e[4]), e[5]) == AfterLeadUp(id)
  {
    var e := LeadUp();
    var s3 := AfterAnswer(id);
    var saving := s3.workers[0];
    var s5 := Step(Step(s3, e[3]), e[4]);
    assert s5 == System(s3.row, LEASE, 2, map[0 := saving, 1 := Selected(LEASE, 1, [Target(id, Unsent)])], s3.wire, false);
    assert Result(saving) == [Target(id, Delivered)];
    assert Step(s5, e[5]).workers == AfterLeadUp(id).workers;
  }

  lemma {:induction false} LeadUpRuns(id: string)
    ensures Run(Init([id], 0), LeadUp()) == AfterLeadUp(id)
  {
    AnswerSteps(id);
    LateSaveSteps(id);
    hide Step, Init, AfterAnswer, AfterLeadUp;
    var s, e := Init([id], 0), LeadUp();
    var s1 := Step(s, e[0]);
    var s2 := Step(s1, e[1]);
    var s4 := Step(AfterAnswer(id), e[3]);
    var s5 := Step(s4, e[4]);
    RunUnfolds(s, e); RunUnfolds(s1, e[1..]); RunUnfolds(s2, e[2..]);
    RunUnfolds(AfterAnswer(id), e[3..]); RunUnfolds(s4, e[4..]); RunUnfolds(s5, e[5..]);
  }

  lemma {:induction false} UndoingRuns(id: string)
    ensures var t := Run(AfterLeadUp(id), Undoing());
            t.row.targets == [Target(id, Revoked)] && t.wire == [Sending(0, 0, 1, true), Sending(1, 0, 2, false)]
  {
    var s, e := AfterLeadUp(id), Undoing();
    var targets := [Target(id, Unsent)];
    var row := Row(Leased, Some(1), 2 * LEASE, 2, 0, [Target(id, Delivered)]);
    var t1 := Step(s, e[0]);
    assert t1.row == row && t1.clock == LEASE && t1.workers[1] == Working(2, targets, 0, false, false);
    var t2 := Step(t1, e[1]);
    assert t2.row == row && t2.clock == LEASE && t2.workers[1] == Saving(2, targets, 0, false, true, Revoked);
    assert t2.wire == s.wire + [Sending(1, 0, 2, false)];
    var t3 := Step(t2, e[2]);
    assert t3.row.targets == [Target(id, Revoked)] && t3.wire == t2.wire;
    hide Step;
    RunUnfolds(s, e); RunUnfolds(t1, e[1..]); RunUnfolds(t2, e[2..]);
  }

  lemma {:induction false} LateCheckpointIsUndone(id: string)
    ensures var s := Run(Init([id], 0), LeadUp());
            var t := Run(s, Undoing());
            s.row.targets == [Target(id, Delivered)] && t.row.targets == [Target(id, Revoked)] && SendsTo(t.wire, 0) == 2
  {
    LeadUpRuns(id);
    UndoingRuns(id);
    hide Run, Step;
    var wire := [Sending(0, 0, 1, true), Sending(1, 0, 2, false)];
    assert SendsTo(wire[..1], 0) == 1;
  }

  // From the same state: the second claim records a refusal, and a third, which selected the list before that,
  // finds every target sent and completes the alarm.
  function Completing(): seq<Event> {
    [ClaimRow(1), Answer(1, true, Rejected), Tick(2 * LEASE), Select(2 * LEASE), Save(1, 2 * LEASE - 1, NoFault),
     ClaimRow(2), Proceed(2), Proceed(2), Close(2, 2 * LEASE, false)]
  }

  function AfterRefusal(id: string): System {
    System(Row(Leased, Some(1), 2 * LEASE, 2, 0, [Target(id, Delivered)]), LEASE, 2,
           map[0 := Working(1, [Target(id, Delivered)], 1, false, false),
               1 := Saving(2, [Target(id, Unsent)], 0, false, true, Revoked)],
           [Sending(0, 0, 1, true), Sending(1, 0, 2, false)], true)
  }

  lemma RefusalSteps(id: string)
    ensures var e := Completing(); Step(Step(AfterLeadUp(id), e[0]), e[1]) == AfterRefusal(id)
  {
    var e := Completing();
    var s := AfterLeadUp(id);
    var s1 := Step(s, e[0]);
    assert s1 == System(Row(Leased, Some(1), 2 * LEASE, 2, 0, [Target(id, Delivered)]), LEASE, 2,
                        s.workers[1 := Working(2, [Target(id, Unsent)], 0, false, false)], s.wire, true);
    assert Step(s1, e[1]).workers == AfterRefusal(id).workers;
  }

  // The third worker has selected the list; the second has then recorded the refusal.
  ghost predicate ThirdSelected(s: System, id: string) {
    && s.row == Row(Leased, Some(1), 2 * LEASE, 2, 0, [Target(id, Revoked)]) && s.clock == 2 * LEASE && s.next == 3
    && 2 in s.workers && s.workers[2] == Selected(2 * LEASE, 2, [Target(id, Delivered)])
  }

  lemma ThirdSteps(id: string)
    ensures var e := Completing(); ThirdSelected(Step(Step(Step(AfterRefusal(id), e[2]), e[3]), e[4]), id)
  {
    var e := Completing();
    var s := AfterRefusal(id);
    var s4 := Step(Step(s, e[2]), e[3]);
    assert s4.row == s.row && s4.clock == 2 * LEASE && s4.next == 3;
    assert s4.workers == s.workers[2 := Selected(2 * LEASE, 2, [Target(id, Delivered)])];
    assert Result(s4.workers[1]) == [Target(id, Revoked)];
  }

  lemma ClosingSteps(s: System, id: string)
    requires ThirdSelected(s, id)
    ensures var e := Completing();
            var t := Step(Step(Step(Step(s, e[5]), e[6]), e[7]), e[8]);
            t.row.state.Sent? && t.row.targets == [Target(id, Revoked)]
  {
    var e := Completing();
    var list := [Target(id, Delivered)];
    var row := Row(Leased, Some(2), 3 * LEASE, 3, 0, [Target(id, Revoked)]);
    var s6 := Step(s, e[5]);
    assert s6.row == row && s6.clock == s.clock && s6.workers[2] == Working(3, list, 0, false, false);
    var s7 := Step(s6, e[6]);
    assert s7.row == row && s7.clock == s.clock && s7.workers[2] == Working(3, list, 1, false, false);
    var s8 := Step(s7, e[7]);
    assert s8.row == row && s8.clock == s.clock && s8.workers[2] == Closing(3, list, Finish);
  }

  // The alarm ends completed while its only dialog is recorded refused.
  lemma {:induction false} CompletedOverRefusal(id: string)
    ensures var t := Run(Run(Init([id], 0), LeadUp()), Completing());
            t.row.state.Sent? && t.row.targets == [Target(id, Revoked)]
  {
    LeadUpRuns(id);
    RefusalSteps(id);
    ThirdSteps(id);
    hide Step, AfterRefusal, AfterLeadUp, ThirdSelected;
    var s, e := AfterLeadUp(id), Completing();
    var s1 := Step(s, e[0]);
    var s2 := Step(s1, e[1]);
    var s3 := Step(s2, e[2]);
    var s4 := Step(s3, e[3]);
    var s5 := Step(s4, e[4]);
    ClosingSteps(s5, id);
    var s6 := Step(s5, e[5]);
    var s7 := Step(s6, e[6]);
    var s8 := Step(s7, e[7]);
    RunUnfolds(s, e); RunUnfolds(s1, e[1..]); RunUnfolds(s2, e[2..]); RunUnfolds(s3, e[3..]); RunUnfolds(s4, e[4..]);
    RunUnfolds(s5, e[5..]); RunUnfolds(s6, e[6..]); RunUnfolds(s7, e[7..]); RunUnfolds(s8, e[8..]);
  }
}
