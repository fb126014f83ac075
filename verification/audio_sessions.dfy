// The audio dialogs of the broadcast tasks, with the clean-up that ends each of them: it reads whether the
// business path has taken the end over, and if not, closes the task's row and frees the lease. The flag is read
// under the registry's lock and the row is written after that, so the two are steps of their own here.
module AudioSessions {
  import opened Wrappers
  import opened BroadcastTasks
  import TalkLease

  datatype Side = Device | Upstream

  // Where the clean-up of a dialog stands.
  datatype Phase = Open | Saw(businessEnd: bool) | Planned(plan: Plan) | RowDone | LeaseDone

  datatype Session = Session(key: string, lease: string, endedBy: Option<Side>, businessEnd: bool, cancelled: bool, phase: Phase)

  type Registry = map<string, Session>

  // `used` holds the ids of all dialogs so far.
  datatype System = System(sessions: Registry, used: set<string>, db: Database)

  datatype Event =
    | Register(dialog: string, key: string, lease: string)
    | Bye(dialog: string, side: Side)
    | Cancel(dialog: string)
    | EndBusiness(key: string)
    | ReadFlag(dialog: string)
    | ReadRow(dialog: string)
    | CommitRow(dialog: string)
    | FreeLease(dialog: string)
    | Remove(dialog: string)
    | OtherWrite(db: Database)

  predicate Taken(sessions: Registry, key: string) {
    exists id :: id in sessions && sessions[id].key == key
  }

  predicate OnePerKey(sessions: Registry) {
    forall a, b :: a in sessions && b in sessions && sessions[a].key == sessions[b].key ==> a == b
  }

  // stopCascadeAudioForBusinessEnd.
  function Marked(sessions: Registry, key: string): Registry {
    map id | id in sessions ::
      if sessions[id].key == key then sessions[id].(businessEnd := true, cancelled := true) else sessions[id]
  }

  // One step of the clean-up of a registered dialog: its next session, and the database after it.
  function Cleaned(x: Session, db: Database, e: Event): (Session, Database) {
    match e
    case ReadFlag(_) => if x.phase.Open? then (x.(phase := Saw(x.businessEnd)), db) else (x, db)
    case ReadRow(_) =>
      if x.phase == Saw(false) then (x.(phase := Planned(PlanUpdate(Find(db, x.key), 0, Some(Closed)))), db) else (x, db)
    case CommitRow(_) =>
      if x.phase.Planned? then (x.(phase := RowDone), Commit(db, x.key, x.phase.plan).0) else (x, db)
    case FreeLease(_) =>
      if x.phase.RowDone? then (x.(phase := LeaseDone), db.(leases := TalkLease.Release(db.leases, x.lease, TalkLease.Ended))) else (x, db)
    case Bye(_, side) => (x.(endedBy := Some(side), cancelled := true), db)
    case Cancel(_) => (x.(cancelled := true), db)
    case _ => (x, db)
  }

  predicate CleanedUp(x: Session) {
    x.phase == Saw(true) || x.phase.LeaseDone?
  }

  function Step(s: System, e: Event): System {
    match e
    case Register(dialog, key, lease) =>
      if Taken(s.sessions, key) || dialog in s.used then s
      else s.(sessions := s.sessions[dialog := Session(key, lease, None, false, false, Open)], used := s.used + {dialog})
    case EndBusiness(key) => s.(sessions := Marked(s.sessions, key))
    case OtherWrite(db) => s.(db := db)
    case Remove(dialog) =>
      if dialog in s.sessions && CleanedUp(s.sessions[dialog]) then s.(sessions := s.sessions - {dialog}) else s
    case _ =>
      if e.dialog !in s.sessions then s
      else
        var (x, db) := Cleaned(s.sessions[e.dialog], s.db, e);
        s.(sessions := s.sessions[e.dialog := x], db := db)
  }

  function Run(s: System, events: seq<Event>): System
    decreases |events|
  {
    if events == [] then s else Run(Step(s, events[0]), events[1..])
  }

  lemma RunUnfolds(s: System, events: seq<Event>)
    requires events != []
    ensures Run(s, events) == Run(Step(s, events[0]), events[1..])
    ensures |events| == 1 ==> Run(s, events) == Step(s, events[0])
  {
  }

  // ---- a task has one dialog ----

  ghost predicate Registered(s: System) {
    OnePerKey(s.sessions) && s.sessions.Keys <= s.used
  }

  // A dialog keeps its task; a new one comes only for a task without.
  lemma DialogSource(s: System, e: Event)
    ensures var t := Step(s, e);
            && s.used <= t.used
            && forall id :: id in t.sessions ==>
                 || (id in s.sessions && t.sessions[id].key == s.sessions[id].key)
                 || (e.Register? && id == e.dialog && id in t.used && t.sessions[id].key == e.key && !Taken(s.sessions, e.key))
  {
  }

  lemma StepKeepsRegistered(s: System, e: Event)
    requires Registered(s)
    ensures Registered(Step(s, e))
  {
    DialogSource(s, e);
    hide Step;
  }

  lemma {:induction false} RunKeepsOnePerKey(s: System, events: seq<Event>)
    requires Registered(s)
    ensures Registered(Run(s, events))
    decreases |events|
  {
    if events != [] {
      StepKeepsRegistered(s, events[0]);
      hide Registered, Step;
      RunKeepsOnePerKey(Step(s, events[0]), events[1..]);
    }
  }

  // ---- who writes the row and frees the lease ----

  // The clean-up of `dialog` executes a write of the row or of the lease.
  predicate Writes(s: System, e: Event, dialog: string) {
    && dialog in s.sessions
    && ((e == CommitRow(dialog) && s.sessions[dialog].phase.Planned?) || (e == FreeLease(dialog) && s.sessions[dialog].phase.RowDone?))
  }

  predicate WritesDuring(s: System, events: seq<Event>, dialog: string)
    decreases |events|
  {
    events != [] && (Writes(s, events[0], dialog) || WritesDuring(Step(s, events[0]), events[1..], dialog))
  }

  // The clean-up has read that the end is its own, and has not yet done its part.
  predicate Determined(x: Session) {
    x.phase == Saw(false) || x.phase.Planned? || x.phase.RowDone?
  }

  // No other step of the clean-up changes the database.
  lemma QuietWithoutWrite(s: System, e: Event, dialog: string)
    requires !e.Register? && !e.EndBusiness? && !e.OtherWrite? && e.dialog == dialog && !Writes(s, e, dialog)
    ensures Step(s, e).db == s.db
  {
  }

  // Marked, or finished, or gone for good.
  ghost predicate Ended(s: System, dialog: string) {
    && dialog in s.used
    && (dialog in s.sessions ==> s.sessions[dialog].businessEnd && !Determined(s.sessions[dialog]))
  }

  lemma StepKeepsEnded(s: System, e: Event, dialog: string)
    requires Ended(s, dialog)
    ensures Ended(Step(s, e), dialog) && !Writes(s, e, dialog)
  {
  }

  lemma {:induction false} EndedNeverWrites(s: System, events: seq<Event>, dialog: string)
    requires Ended(s, dialog)
    ensures !WritesDuring(s, events, dialog)
    decreases |events|
  {
    if events != [] {
      StepKeepsEnded(s, events[0], dialog);
      hide Ended, Step, Writes;
      EndedNeverWrites(Step(s, events[0]), events[1..], dialog);
    }
  }

  // What is left of a clean-up that has read `false`.
  function Remaining(x: Session, dialog: string): seq<Event> {
    match x.phase
    case Saw(_) => [ReadRow(dialog), CommitRow(dialog)]
    case Planned(_) => [CommitRow(dialog)]
    case _ => [FreeLease(dialog)]
  }

  lemma DeterminedWrites(s: System, dialog: string)
    requires dialog in s.sessions && Determined(s.sessions[dialog])
    ensures WritesDuring(s, Remaining(s.sessions[dialog], dialog), dialog)
  {
    var events := Remaining(s.sessions[dialog], dialog);
    if s.sessions[dialog].phase.Saw? {
      var t := Step(s, events[0]);
      assert t.sessions[dialog].phase.Planned?;
      assert events[1..] == [CommitRow(dialog)];
      assert WritesDuring(t, events[1..], dialog);
    }
  }

  // Once the business path has marked the dialog of a task, the clean-up of that dialog can still write the row or
  // free the lease if and only if it had read the flag before the mark and is not done.
  lemma {:induction false} BusinessEndOwnsTheRow(s: System, dialog: string)
    requires Registered(s) && dialog in s.sessions
    ensures var t := Step(s, EndBusiness(s.sessions[dialog].key));
            (exists events :: WritesDuring(t, events, dialog)) <==> Determined(s.sessions[dialog])
  {
    var t := Step(s, EndBusiness(s.sessions[dialog].key));
    assert t.sessions[dialog].phase == s.sessions[dialog].phase && t.sessions[dialog].businessEnd;
    hide Step, Writes, Registered;
    if Determined(s.sessions[dialog]) {
      DeterminedWrites(t, dialog);
      assert exists events :: WritesDuring(t, events, dialog);
    } else {
      assert t.used == s.used && dialog in s.used by { MarkKeepsUsed(s, s.sessions[dialog].key, dialog); }
      forall events ensures !WritesDuring(t, events, dialog) {
        EndedNeverWrites(t, events, dialog);
      }
    }
  }

  lemma MarkKeepsUsed(s: System, key: string, dialog: string)
    requires Registered(s) && dialog in s.sessions
    ensures Step(s, EndBusiness(key)).used == s.used && dialog in s.used
  {
  }

  // ---- whole clean-ups ----

  // The business path ends the task before the clean-up reads the flag.
  predicate EndsFirst(events: seq<Event>, dialog: string, key: string)
    decreases |events|
  {
    events != [] && events[0] != ReadFlag(dialog) && (events[0] == EndBusiness(key) || EndsFirst(events[1..], dialog, key))
  }

  lemma OpenStep(s: System, e: Event, dialog: string)
    requires Registered(s) && dialog in s.sessions && s.sessions[dialog].phase.Open? && !s.sessions[dialog].businessEnd
    ensures var t := Step(s, e);
            && dialog in t.sessions && t.sessions[dialog].key == s.sessions[dialog].key && !Writes(s, e, dialog)
            && (if e == ReadFlag(dialog) then t.sessions[dialog].phase == Saw(false)
                else t.sessions[dialog].phase.Open? && (t.sessions[dialog].businessEnd <==> e == EndBusiness(s.sessions[dialog].key)))
            && (e == EndBusiness(s.sessions[dialog].key) ==> Ended(t, dialog))
  {
  }

  lemma DeterminedStep(s: System, e: Event, dialog: string)
    requires Registered(s) && dialog in s.sessions && Determined(s.sessions[dialog]) && !Writes(s, e, dialog)
    ensures dialog in Step(s, e).sessions && Determined(Step(s, e).sessions[dialog])
  {
  }

  lemma {:induction false} DeterminedFinishesByWriting(s: System, events: seq<Event>, dialog: string)
    requires Registered(s) && dialog in s.sessions && Determined(s.sessions[dialog]) && dialog !in Run(s, events).sessions
    ensures WritesDuring(s, events, dialog)
    decreases |events|
  {
    if events != [] && !Writes(s, events[0], dialog) {
      DeterminedStep(s, events[0], dialog);
      StepKeepsRegistered(s, events[0]);
      hide Step, Writes, Registered;
      DeterminedFinishesByWriting(Step(s, events[0]), events[1..], dialog);
    }
  }

  // A dialog that was cleaned up and removed has left its row and lease alone if and only if the business path ended
  // its task before the clean-up read the flag.
  lemma {:induction false} LeftAloneExactly(s: System, events: seq<Event>, dialog: string)
    requires Registered(s) && dialog in s.sessions && s.sessions[dialog].phase.Open? && !s.sessions[dialog].businessEnd
    requires dialog !in Run(s, events).sessions
    ensures !WritesDuring(s, events, dialog) <==> EndsFirst(events, dialog, s.sessions[dialog].key)
    decreases |events|
  {
    var key := s.sessions[dialog].key;
    var e, t := events[0], Step(s, events[0]);
    OpenStep(s, e, dialog);
    StepKeepsRegistered(s, e);
    hide Step, Writes, Registered, Ended, Determined;
    if e == ReadFlag(dialog) {
      assert Determined(t.sessions[dialog]) by { SawFalseIsDetermined(t.sessions[dialog]); }
      DeterminedFinishesByWriting(t, events[1..], dialog);
    } else if e == EndBusiness(key) {
      EndedNeverWrites(t, events[1..], dialog);
    } else {
      LeftAloneExactly(t, events[1..], dialog);
    }
  }

  lemma SawFalseIsDetermined(x: Session)
    requires x.phase == Saw(false)
    ensures Determined(x)
  {
  }

  // ---- the run on which the business path comes too late ----

  function TooLate(dialog: string, key: string): seq<Event> {
    [Cancel(dialog), ReadFlag(dialog), EndBusiness(key), ReadRow(dialog), CommitRow(dialog), FreeLease(dialog), Remove(dialog)]
  }

  // The dialog `x` of an open task with a live lease, marked by the business path after its flag was read.
  ghost predicate MarkedLate(s: System, t: System, dialog: string) {
    && dialog in s.sessions && dialog in t.sessions && t.db == s.db
    && t.sessions[dialog].key == s.sessions[dialog].key && t.sessions[dialog].lease == s.sessions[dialog].lease
    && t.sessions[dialog].businessEnd && t.sessions[dialog].phase == Saw(false)
  }

  lemma MarkingSteps(s: System, dialog: string)
    requires dialog in s.sessions && s.sessions[dialog].phase.Open? && !s.sessions[dialog].businessEnd
    ensures var key := s.sessions[dialog].key;
            MarkedLate(s, Step(Step(Step(s, Cancel(dialog)), ReadFlag(dialog)), EndBusiness(key)), dialog)
  {
  }

  // The row of `key` is an open broadcast whose lease is live.
  predicate OpenTask(db: Database, key: string, lease: string) {
    && key in db.tasks && db.tasks[key].kind.Broadcast? && !db.tasks[key].state.Terminal() && db.tasks[key].summary.Encoded?
    && db.tasks[key].summary.binding.audioLeaseId == lease && lease != ""
    && TalkLease.Live(db.leases, lease) && db.leases[lease].mode.Cascade?
  }

  predicate ClosedTask(db: Database, key: string, lease: string) {
    && key in db.tasks && db.tasks[key].state.Closed? && !TalkLease.Live(db.leases, lease)
  }

  lemma ClosingCommits(db: Database, key: string, lease: string)
    requires OpenTask(db, key, lease)
    ensures ClosedTask(Commit(db, key, PlanUpdate(Find(db, key), 0, Some(Closed))).0, key, lease)
  {
  }

  lemma ClosingSteps(t: System, dialog: string)
    requires dialog in t.sessions && t.sessions[dialog].phase == Saw(false)
    requires OpenTask(t.db, t.sessions[dialog].key, t.sessions[dialog].lease)
    ensures var key := t.sessions[dialog].key;
            var u := Step(Step(Step(Step(t, ReadRow(dialog)), CommitRow(dialog)), FreeLease(dialog)), Remove(dialog));
            dialog !in u.sessions && ClosedTask(u.db, key, t.sessions[dialog].lease)
  {
    var x := t.sessions[dialog];
    ClosingCommits(t.db, x.key, x.lease);
    var plan := PlanUpdate(Find(t.db, x.key), 0, Some(Closed));
    hide PlanUpdate, Commit, OpenTask;
    var u1 := Step(t, ReadRow(dialog));
    assert u1.sessions[dialog] == x.(phase := Planned(plan)) && u1.db == t.db;
    var u2 := Step(u1, CommitRow(dialog));
    assert u2.sessions[dialog] == x.(phase := RowDone) && ClosedTask(u2.db, x.key, x.lease);
    var u3 := Step(u2, FreeLease(dialog));
    assert u3.sessions[dialog] == x.(phase := LeaseDone) && u3.db == u2.db.(leases := u2.db.leases);
  }

  // A device's ERROR that marks the dialog after the flag was read finds the row closed and the lease freed, and
  // its own result is refused.
  lemma {:induction false} LateBusinessEndLosesTheRow(s: System, dialog: string)
    requires dialog in s.sessions && s.sessions[dialog].phase.Open? && !s.sessions[dialog].businessEnd
    requires OpenTask(s.db, s.sessions[dialog].key, s.sessions[dialog].lease)
    ensures var key := s.sessions[dialog].key;
            var t := Run(s, TooLate(dialog, key));
            && dialog !in t.sessions && ClosedTask(t.db, key, s.sessions[dialog].lease)
            && PlanRecord(Find(t.db, key), Error) == Refuse(NotActive)
  {
    var key := s.sessions[dialog].key;
    var e := TooLate(dialog, key);
    MarkingSteps(s, dialog);
    var s1 := Step(s, e[0]);
    var s2 := Step(s1, e[1]);
    var s3 := Step(s2, e[2]);
    assert MarkedLate(s, s3, dialog);
    ClosingSteps(s3, dialog);
    hide Step, OpenTask;
    var s4 := Step(s3, e[3]);
    var s5 := Step(s4, e[4]);
    var s6 := Step(s5, e[5]);
    RunUnfolds(s, e); RunUnfolds(s1, e[1..]); RunUnfolds(s2, e[2..]); RunUnfolds(s3, e[3..]);
    RunUnfolds(s4, e[4..]); RunUnfolds(s5, e[5..]); RunUnfolds(s6, e[6..]);
  }

  // ---- the runtime itself ----

  class AudioRuntime {
    var sessions: Registry
    var used: set<string>
    var db: Database

    function State(): System
      reads this
    {
      System(sessions, used, db)
    }

    constructor (db: Database)
      ensures State() == System(map[], {}, db) && Registered(State())
    {
      sessions, used := map[], {};
      this.db := db;
    }

    // The dialogs are tried in any order; at most one has the key.
    method FindDialog(key: string) returns (dialog: Option<string>)
      ensures dialog.None? <==> !Taken(sessions, key)
      ensures dialog.Some? ==> dialog.value in sessions && sessions[dialog.value].key == key
    {
      var rest := sessions.Keys;
      while rest != {}
        invariant rest <= sessions.Keys
        invariant forall id :: id in sessions && id !in rest ==> sessions[id].key != key
        decreases |rest|
      {
        var id :| id in rest;
        if sessions[id].key == key {
          return Some(id);
        }
        rest := rest - {id};
      }
      return None;
    }

    // The registration section of registerCascadeAudioSession, for a dialog id not used before.
    method RegisterDialog(dialog: string, key: string, lease: string) returns (ok: bool)
      requires Registered(State()) && dialog !in used
      modifies this
      ensures ok == !old(Taken(sessions, key)) && State() == Step(old(State()), Register(dialog, key, lease))
      ensures sessions == if ok then old(sessions)[dialog := Session(key, lease, None, false, false, Open)] else old(sessions)
      ensures Registered(State())
    {
      StepKeepsRegistered(State(), Register(dialog, key, lease));
      hide Registered;
      var current := FindDialog(key);
      if current.Some? {
        return false;
      }
      sessions := sessions[dialog := Session(key, lease, None, false, false, Open)];
      used := used + {dialog};
      return true;
    }

    // stopCascadeAudioForBusinessEnd up to its wait: the dialog to wait for.
    method StopForBusinessEnd(key: string) returns (dialog: Option<string>)
      requires Registered(State())
      modifies this`sessions
      ensures State() == Step(old(State()), EndBusiness(key)) && Registered(State())
      ensures dialog.Some? <==> old(Taken(sessions, key))
      ensures dialog.Some? ==>
                && dialog.value in old(sessions) && old(sessions)[dialog.value].key == key
                && sessions == old(sessions)[dialog.value := old(sessions)[dialog.value].(businessEnd := true, cancelled := true)]
      ensures dialog.None? ==> sessions == old(sessions)
    {
      StepKeepsRegistered(State(), EndBusiness(key));
      dialog := FindDialog(key);
      if dialog.Some? {
        sessions := sessions[dialog.value := sessions[dialog.value].(businessEnd := true, cancelled := true)];
      }
      assert sessions == Marked(old(sessions), key);
    }

    // A BYE from one side: the dialog remembers the side and is cancelled.
    method HangUp(dialog: string, side: Side)
      requires dialog in sessions
      modifies this`sessions
      ensures State() == Step(old(State()), Bye(dialog, side))
      ensures sessions == old(sessions)[dialog := old(sessions)[dialog].(endedBy := Some(side), cancelled := true)]
    {
      sessions := sessions[dialog := sessions[dialog].(endedBy := Some(side), cancelled := true)];
    }

    // Silent media or lost authorisation: the dialog is cancelled on its own account.
    method CancelDialog(dialog: string)
      requires dialog in sessions
      modifies this`sessions
      ensures State() == Step(old(State()), Cancel(dialog))
      ensures sessions == old(sessions)[dialog := old(sessions)[dialog].(cancelled := true)]
    {
      sessions := sessions[dialog := sessions[dialog].(cancelled := true)];
    }

    // The BYEs of cleanupCascadeAudio: a side that hung up gets none, the other one does if its dialog stands.
    method ByesOf(dialog: string, answered: bool, confirmed: bool) returns (byeUpstream: bool, byeDevice: bool)
      requires dialog in sessions
      ensures byeUpstream <==> answered && sessions[dialog].endedBy != Some(Upstream)
      ensures byeDevice <==> confirmed && sessions[dialog].endedBy != Some(Device)
    {
      var x := sessions[dialog];
      byeUpstream, byeDevice := false, false;
      if (x.endedBy.None? || x.endedBy != Some(Upstream)) && answered {
        byeUpstream := true;
      }
      if (x.endedBy.None? || x.endedBy != Some(Device)) && confirmed {
        byeDevice := true;
      }
    }

    // cleanupCascadeAudio, first step: whether the business path owns the end.
    method ReadBusinessEnd(dialog: string) returns (businessEnd: bool)
      requires dialog in sessions && sessions[dialog].phase.Open?
      modifies this`sessions
      ensures State() == Step(old(State()), ReadFlag(dialog)) && businessEnd == old(sessions)[dialog].businessEnd
      ensures sessions == old(sessions)[dialog := old(sessions)[dialog].(phase := Saw(businessEnd))]
    {
      businessEnd := sessions[dialog].businessEnd;
      sessions := sessions[dialog := sessions[dialog].(phase := Saw(businessEnd))];
    }

    // The write of the row: updateBroadcast's conditional UPDATE for the row that it read.
    method CloseRow(dialog: string) returns (outcome: Outcome)
      requires dialog in sessions && sessions[dialog].phase.Planned?
      modifies this`sessions, this`db
      ensures State() == Step(old(State()), CommitRow(dialog))
      ensures outcome == Commit(old(db), old(sessions)[dialog].key, old(sessions)[dialog].phase.plan).1
    {
      var x := sessions[dialog];
      var (after, result) := Commit(db, x.key, x.phase.plan);
      db, outcome := after, result;
      sessions := sessions[dialog := x.(phase := RowDone)];
    }

    // The release that follows, whatever became of the row.
    method ReleaseLease(dialog: string)
      requires dialog in sessions && sessions[dialog].phase.RowDone?
      modifies this`sessions, this`db
      ensures State() == Step(old(State()), FreeLease(dialog))
      ensures db.tasks == old(db).tasks
      ensures var id := old(sessions)[dialog].lease;
              db.leases == if TalkLease.Live(old(db).leases, id) && old(db).leases[id].mode.Cascade?
                           then old(db).leases[id := old(db).leases[id].(state := TalkLease.Ended)] else old(db).leases
    {
      var x := sessions[dialog];
      db := db.(leases := TalkLease.Release(db.leases, x.lease, TalkLease.Ended));
      sessions := sessions[dialog := x.(phase := LeaseDone)];
    }

    // The deferred end of registerCascadeAudioSession.
    method RemoveDialog(dialog: string)
      requires dialog in sessions && CleanedUp(sessions[dialog])
      modifies this`sessions
      ensures State() == Step(old(State()), Remove(dialog)) && dialog !in sessions
    {
      sessions := sessions - {dialog};
    }
  }
}
