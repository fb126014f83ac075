// Who writes which field of a broadcast row: each field has one writer, which writes what its own caller gave it
// and leaves the rest of the row as it was.
module BroadcastWriters {
  import opened Wrappers
  import opened BroadcastTasks
  import opened BroadcastGrowth
  import opened BroadcastRuns
  import TalkLease

  // ---- one transaction: when it succeeds, and the row that it leaves ----

  // The row is still the broadcast row that was read.
  predicate Current(db: Database, key: string, seen: Option<Task>) {
    && seen.Some? && seen.value.kind.Broadcast? && seen.value.summary.Encoded?
    && key in db.tasks && db.tasks[key].summary == seen.value.summary && db.tasks[key].state == seen.value.state
  }

  // The binding `b` with these fields written.
  function With(b: Binding, notifyStatus: int, deviceResult: DeviceResult, delivered: bool, attemptAt: Option<int>, attempts: nat,
                audio: AudioTransaction): Binding {
    Binding(b.messageHash, notifyStatus, deviceResult, delivered, attemptAt, attempts, b.localSourceId, b.audioLeaseId, audio, b.scope)
  }

  // Of the leases only this one has changed: it was a live cascade lease and has failed.
  predicate Freed(before: TalkLease.Leases, after: TalkLease.Leases, id: string) {
    after == if id != "" && id in before && before[id].mode.Cascade? && !before[id].state.Terminal()
             then before[id := before[id].(state := TalkLease.Failed)] else before
  }

  // Only the row of `key` is new, with this state and binding; its lease is freed if `frees`, and no other one.
  predicate Leaves(db: Database, after: Database, key: string, state: MediaState, b: Binding, frees: bool)
    requires key in db.tasks
  {
    var row := db.tasks[key];
    && after.tasks == db.tasks[key := Task(row.kind, row.cseq, row.channel, state, Encoded(b), row.receivedAt)]
    && (if frees then Freed(db.leases, after.leases, b.audioLeaseId) else after.leases == db.leases)
  }

  // A Notify completion or a closing sets the status once and ends an open row as asked.
  lemma UpdateLeaves(db: Database, key: string, seen: Option<Task>, status: int, terminal: Option<MediaState>)
    ensures var r := Commit(db, key, PlanUpdate(seen, status, terminal));
            && (r.1.Done? <==> Current(db, key, seen) && (terminal.None? ==> !db.tasks[key].state.Terminal()))
            && (if r.1.Done? then
                  var row, b := db.tasks[key], db.tasks[key].summary.binding;
                  Leaves(db, r.0, key, if terminal.Some? && !row.state.Terminal() then terminal.value else row.state,
                         With(b, if b.notifyStatus == 0 then status else b.notifyStatus, b.deviceResult, b.resultDelivered,
                              b.resultAttemptAt, b.resultAttempts, b.audio), terminal.Some?)
                else r.0 == db)
  {
  }

  // The record of a device's answer sets the result alone, and only once.
  lemma RecordLeaves(db: Database, key: string, seen: Option<Task>, result: DeviceResult)
    ensures var r := Commit(db, key, PlanRecord(seen, result));
            && (r.1.Done? <==>
                  && !result.NoResult? && Current(db, key, seen) && !db.tasks[key].state.Terminal()
                  && db.tasks[key].summary.binding.deviceResult in {NoResult, result})
            && (if r.1.Done? then
                  var row, b := db.tasks[key], db.tasks[key].summary.binding;
                  Leaves(db, r.0, key, row.state,
                         With(b, b.notifyStatus, result, b.resultDelivered, b.resultAttemptAt, b.resultAttempts, b.audio), result.Error?)
                else r.0 == db)
  {
  }

  // The earliest time of the next grant, after the first one.
  predicate GrantDue(b: Binding, at: int) {
    && !b.deviceResult.NoResult? && !b.resultDelivered
    && (b.resultAttemptAt.Some? ==> b.resultAttempts > 0 && at >= b.resultAttemptAt.value + RetryDelay(b.resultAttempts))
  }

  // A grant is given exactly when one is due, and counts the attempt.
  lemma GrantLeaves(db: Database, key: string, seen: Option<Task>, at: int)
    ensures var r := Commit(db, key, PlanGrant(seen, at));
            && (r.1.Done? <==>
                  Current(db, key, seen) && !db.tasks[key].state.Terminal() && GrantDue(db.tasks[key].summary.binding, at))
            && (if r.1.Done? then
                  var row, b := db.tasks[key], db.tasks[key].summary.binding;
                  Leaves(db, r.0, key, row.state,
                         With(b, b.notifyStatus, b.deviceResult, b.resultDelivered, Some(at), b.resultAttempts + 1, b.audio), false)
                else r.0 == db)
  {
    hide RetryDelay;
  }

  // The end of a delivery sets the delivered flag, and the state that the result calls for.
  lemma FinishLeaves(db: Database, key: string, seen: Option<Task>, result: DeviceResult)
    ensures var r := Commit(db, key, PlanFinish(seen, result));
            && (r.1.Done? <==>
                  Current(db, key, seen) && db.tasks[key].summary.binding.deviceResult == result && !db.tasks[key].summary.binding.resultDelivered)
            && (if r.1.Done? then
                  var row, b := db.tasks[key], db.tasks[key].summary.binding;
                  Leaves(db, r.0, key, if result.Error? then Failed else if row.state.Provisioning? then Answered else row.state,
                         With(b, b.notifyStatus, b.deviceResult, true, b.resultAttemptAt, b.resultAttempts, b.audio), false)
                else r.0 == db)
  {
  }

  // The claim of an audio INVITE sets the audio transaction alone.
  lemma ClaimLeaves(db: Database, key: string, seen: Option<Task>, pulled: Binding, audio: AudioTransaction, permitted: bool)
    ensures var r := CommitClaim(db, key, PlanClaim(seen, pulled, audio, permitted));
            if r.1.Done? then
              && key in db.tasks && db.tasks[key].summary.Encoded?
              && (var row, b := db.tasks[key], db.tasks[key].summary.binding;
                  && (b.audio.callId == "" || b.audio == audio)
                  && Leaves(db, r.0, key, row.state,
                            With(b, b.notifyStatus, b.deviceResult, b.resultDelivered, b.resultAttemptAt, b.resultAttempts, audio), false))
            else r.0 == db
  {
    hide BindingStable;
  }

  lemma TransitionLeaves(db: Database, key: string, from: MediaState, to: MediaState)
    ensures var r := Transition(db, key, from, to);
            if r.1 then key in db.tasks && db.tasks[key].state == from && r.0 == db.(tasks := db.tasks[key := db.tasks[key].(state := to)])
            else r.0 == db
  {
  }

  // ---- one step of the machine ----

  predicate Works(s: System, e: Event) {
    (e.CommitUpdate? || e.CommitRecord? || e.CommitGrant? || e.CommitFinish? || e.CommitState? || e.CommitAudio?) && e.id in s.jobs
  }

  // What the commit of `job` may change in the row `a` of its task.
  predicate Allowed(e: Event, job: Job, a: Task, b: Task)
    requires a.summary.Encoded? && b.summary.Encoded?
  {
    var x, y := a.summary.binding, b.summary.binding;
    && b.kind == a.kind && b.cseq == a.cseq && b.channel == a.channel && b.receivedAt == a.receivedAt
    && y.messageHash == x.messageHash && y.localSourceId == x.localSourceId && y.audioLeaseId == x.audioLeaseId && y.scope == x.scope
    && (y.notifyStatus != x.notifyStatus ==> e.CommitUpdate? && job.Updating? && y.notifyStatus == job.status && x.notifyStatus == 0)
    && (y.deviceResult != x.deviceResult ==> e.CommitRecord? && job.Recording? && y.deviceResult == job.result && x.deviceResult.NoResult?)
    && (y.audio != x.audio ==> e.CommitAudio? && job.Claiming? && y.audio == job.audio && x.audio.callId == "")
    && (y.resultDelivered != x.resultDelivered ==> e.CommitFinish? && job.Finishing? && x.deviceResult == job.result && y.resultDelivered)
    && ((y.resultAttempts != x.resultAttempts || y.resultAttemptAt != x.resultAttemptAt) ==>
          e.CommitGrant? && job.Granting? && y.resultAttempts == x.resultAttempts + 1 && y.resultAttemptAt == Some(job.at))
    && (b.state != a.state ==>
          || (e.CommitUpdate? && job.Updating? && Some(b.state) == job.terminal && !a.state.Terminal())
          || (e.CommitFinish? && job.Finishing? && b.state == if job.result.Error? then Failed else Answered)
          || (e.CommitState? && job.Activating? && b.state == if a.state.Provisioning? then Answered else Active))
  }

  ghost predicate Changed(s: System, t: System, e: Event, key: string)
    requires OwnsLease(s.db, key)
  {
    && OwnsLease(t.db, key)
    && (t.db.tasks[key] == s.db.tasks[key]
        || (Works(s, e) && s.jobs[e.id].key == key && Allowed(e, s.jobs[e.id], s.db.tasks[key], t.db.tasks[key])))
  }

  lemma RowCommit(s: System, e: Event, key: string)
    requires OwnsLease(s.db, key) && (e.CommitUpdate? || e.CommitRecord? || e.CommitGrant? || e.CommitFinish?)
    ensures Changed(s, Step(s, e), e, key)
  {
    hide Commit, PlanUpdate, PlanRecord, PlanGrant, PlanFinish, GrantDue;
    WriterOf(s, e);
    hide EffectOf;
    if e.id in s.jobs {
      match s.jobs[e.id]
      case Updating(k, status, terminal, _, seen) => UpdateLeaves(s.db, k, seen, status, terminal);
      case Recording(k, result, seen) => RecordLeaves(s.db, k, seen, result);
      case Granting(k, _, at, seen) => GrantLeaves(s.db, k, seen, at);
      case Finishing(k, result, seen) => FinishLeaves(s.db, k, seen, result);
      case _ =>
    }
  }

  lemma OtherCommit(s: System, e: Event, key: string)
    requires OwnsLease(s.db, key) && (e.CommitReservation? || e.CommitState? || e.CommitAudio? || e.LeaseCall? || e.CreateForeign?)
    ensures Changed(s, Step(s, e), e, key)
  {
    hide CommitClaim, PlanClaim, Transition, TalkLease.Apply, TalkLease.Reserve;
    WriterOf(s, e);
    hide EffectOf;
    match e
    case CommitState(id) =>
      if id in s.jobs && s.jobs[id].Activating? {
        TransitionLeaves(s.db, s.jobs[id].key, Provisioning, Answered);
        TransitionLeaves(s.db, s.jobs[id].key, Answered, MediaState.Active);
      }
    case CommitAudio(id) =>
      if id in s.jobs && s.jobs[id].Claiming? {
        var Claiming(k, pulled, _, audio, permitted, seen) := s.jobs[id];
        ClaimLeaves(s.db, k, seen, pulled, audio, permitted);
      }
    case _ =>
  }

  // In every step each field of a row changes only by the commit of the one job that may write it, and to what that
  // job carries.
  lemma EachFieldHasOneWriter(s: System, e: Event, key: string)
    requires OwnsLease(s.db, key)
    ensures Changed(s, Step(s, e), e, key)
  {
    QuietStep(s, e);
    hide Step, Changed;
    if !Writes(e) {
      SameRow(s, e, key);
    } else if e.CommitUpdate? || e.CommitRecord? || e.CommitGrant? || e.CommitFinish? {
      RowCommit(s, e, key);
    } else {
      OtherCommit(s, e, key);
    }
  }

  lemma SameRow(s: System, e: Event, key: string)
    requires OwnsLease(s.db, key) && Step(s, e).db == s.db
    ensures Changed(s, Step(s, e), e, key)
  {
  }

  // The job at work ends a task: its lease is the one that the same transaction frees.
  predicate Ends(e: Event, job: Job) {
    (e.CommitUpdate? && job.Updating? && job.terminal.Some?) || (e.CommitRecord? && job.Recording? && job.result.Error?)
  }

  // Apart from the lease calls and the reservation of a new task, leases change only with the end of a task or its
  // ERROR, and then only the lease of that task.
  lemma LeasesEndWithTheirTask(s: System, e: Event)
    requires !e.LeaseCall? && !e.CommitReservation?
    ensures var t := Step(s, e);
            || t.db.leases == s.db.leases
            || (&& Works(s, e) && Ends(e, s.jobs[e.id])
                && (var key := s.jobs[e.id].key;
                    && key in s.db.tasks && s.db.tasks[key].summary.Encoded?
                    && Freed(s.db.leases, t.db.leases, s.db.tasks[key].summary.binding.audioLeaseId)))
  {
    QuietStep(s, e);
    hide Commit, PlanUpdate, PlanRecord, PlanGrant, PlanFinish, CommitClaim, PlanClaim, Transition, GrantDue, Freed;
    WriterOf(s, e);
    hide EffectOf;
    if Works(s, e) {
      match s.jobs[e.id]
      case Updating(k, status, terminal, _, seen) => UpdateLeaves(s.db, k, seen, status, terminal);
      case Recording(k, result, seen) => RecordLeaves(s.db, k, seen, result);
      case Granting(k, _, at, seen) => GrantLeaves(s.db, k, seen, at);
      case Finishing(k, result, seen) => FinishLeaves(s.db, k, seen, result);
      case Claiming(k, pulled, _, audio, permitted, seen) => ClaimLeaves(s.db, k, seen, pulled, audio, permitted);
      case Activating(k, _) =>
        TransitionLeaves(s.db, k, Provisioning, Answered);
        TransitionLeaves(s.db, k, Answered, MediaState.Active);
      case _ =>
    }
  }

  // ---- whole runs: where a recorded value came from ----

  // The device answered with `result` for this task.
  predicate DeviceAnswered(events: seq<Event>, key: string, result: DeviceResult) {
    exists k :: 0 <= k < |events| && events[k].ReadRecord? && events[k].key == key && events[k].result == result
  }

  // An audio INVITE came with this transaction.
  predicate Invited(events: seq<Event>, audio: AudioTransaction) {
    exists k :: 0 <= k < |events| && events[k].ReadClaim? && events[k].audio == audio
  }

  predicate KnownStatus(status: int) {
    status == 0 || status == 200 || status == 403 || status == 502
  }

  predicate JobTraced(events: seq<Event>, job: Job) {
    && (job.Recording? ==> DeviceAnswered(events, job.key, job.result))
    && (job.Claiming? ==> Invited(events, job.audio))
    && (job.UpdateDue? || job.Updating? ==> KnownStatus(job.status))
  }

  ghost predicate RowTraced(events: seq<Event>, db: Database, key: string) {
    OwnsLease(db, key) ==>
      var b := db.tasks[key].summary.binding;
      && (!b.deviceResult.NoResult? ==> DeviceAnswered(events, key, b.deviceResult))
      && (b.audio.callId != "" ==> Invited(events, b.audio))
      && KnownStatus(b.notifyStatus)
  }

  ghost predicate Traced(events: seq<Event>, s: System) {
    && (forall id :: id in s.jobs ==> JobTraced(events, s.jobs[id]))
    && (forall key :: RowTraced(events, s.db, key))
  }

  lemma JobSource(s: System, e: Event)
    ensures var f := EffectOf(s, e);
            f.fate.Become? ==>
              && (f.fate.job.Recording? ==> e.ReadRecord? && f.fate.job.key == e.key && f.fate.job.result == e.result)
              && (f.fate.job.Claiming? ==> e.ReadClaim? && f.fate.job.audio == e.audio)
              && (f.fate.job.UpdateDue? ==> KnownStatus(f.fate.job.status))
              && (f.fate.job.Updating? ==> f.id in s.jobs && s.jobs[f.id].UpdateDue? && s.jobs[f.id].status == f.fate.job.status)
  {
    hide Commit, CommitClaim, Transition, Insert, PlanUpdate, PlanRecord, PlanGrant, PlanFinish, PlanClaim, AcceptExisting, LeaseUsable;
  }

  // A row that is new in this step is a drafted one, without a result, a status or an audio transaction.
  lemma RowSource(s: System, e: Event, key: string)
    requires !OwnsLease(s.db, key) && OwnsLease(Step(s, e).db, key)
    ensures var b := Step(s, e).db.tasks[key].summary.binding;
            b.deviceResult.NoResult? && b.notifyStatus == 0 && b.audio.callId == ""
  {
    QuietStep(s, e);
    hide Step;
    if Writes(e) {
      NewRow(s, e, key);
    }
  }

  lemma QuietStep(s: System, e: Event)
    ensures !Writes(e) ==> Step(s, e).db == s.db
  {
    if !Writes(e) {
      OthersWriteNothing(s, e);
    }
    hide EffectOf;
  }

  lemma NewRow(s: System, e: Event, key: string)
    requires Writes(e) && !OwnsLease(s.db, key) && OwnsLease(Step(s, e).db, key)
    ensures var b := Step(s, e).db.tasks[key].summary.binding;
            b.deviceResult.NoResult? && b.notifyStatus == 0 && b.audio.callId == ""
  {
    hide PlanUpdate, PlanRecord, PlanGrant, PlanFinish, PlanClaim, Commit, CommitClaim, TalkLease.Apply, TalkLease.Reserve, Transition;
    WriterOf(s, e);
    hide EffectOf;
    if (e.CommitUpdate? || e.CommitRecord? || e.CommitGrant? || e.CommitFinish? || e.CommitState? || e.CommitAudio?) && e.id in s.jobs {
      match s.jobs[e.id]
      case Updating(k, status, terminal, _, seen) => UpdateLeaves(s.db, k, seen, status, terminal);
      case Recording(k, result, seen) => RecordLeaves(s.db, k, seen, result);
      case Granting(k, _, at, seen) => GrantLeaves(s.db, k, seen, at);
      case Finishing(k, result, seen) => FinishLeaves(s.db, k, seen, result);
      case Claiming(k, pulled, _, audio, permitted, seen) => ClaimLeaves(s.db, k, seen, pulled, audio, permitted);
      case Activating(k, _) =>
        TransitionLeaves(s.db, k, Provisioning, MediaState.Answered);
        TransitionLeaves(s.db, k, MediaState.Answered, MediaState.Active);
      case _ =>
    }
  }

  lemma TracesGrow(events: seq<Event>, e: Event)
    ensures forall key, result :: DeviceAnswered(events, key, result) ==> DeviceAnswered(events + [e], key, result)
    ensures forall audio :: Invited(events, audio) ==> Invited(events + [e], audio)
    ensures e.ReadRecord? ==> DeviceAnswered(events + [e], e.key, e.result)
    ensures e.ReadClaim? ==> Invited(events + [e], e.audio)
  {
    forall k | 0 <= k < |events| ensures (events + [e])[k] == events[k] {}
    assert (events + [e])[|events|] == e;
    forall key, result | DeviceAnswered(events, key, result) ensures DeviceAnswered(events + [e], key, result) {
      var k :| 0 <= k < |events| && events[k].ReadRecord? && events[k].key == key && events[k].result == result;
      assert (events + [e])[k] == events[k];
    }
    forall audio | Invited(events, audio) ensures Invited(events + [e], audio) {
      var k :| 0 <= k < |events| && events[k].ReadClaim? && events[k].audio == audio;
      assert (events + [e])[k] == events[k];
    }
  }

  lemma StepTracesJobs(events: seq<Event>, s: System, e: Event)
    requires Traced(events, s)
    ensures forall id :: id in Step(s, e).jobs ==> JobTraced(events + [e], Step(s, e).jobs[id])
  {
    TracesGrow(events, e);
    JobSource(s, e);
    hide EffectOf, DeviceAnswered, Invited;
  }

  lemma StepTracesRow(events: seq<Event>, s: System, e: Event, key: string)
    requires Traced(events, s)
    ensures RowTraced(events + [e], Step(s, e).db, key)
  {
    TracesGrow(events, e);
    hide Step, DeviceAnswered, Invited;
    var t := Step(s, e);
    assert RowTraced(events, s.db, key);
    if OwnsLease(t.db, key) {
      if OwnsLease(s.db, key) {
        EachFieldHasOneWriter(s, e, key);
        assert Works(s, e) ==> JobTraced(events, s.jobs[e.id]);
      } else {
        RowSource(s, e, key);
      }
    }
  }

  lemma {:induction false} RunIsTraced(events: seq<Event>)
    ensures Traced(events, Run(Init(), events))
    decreases |events|
  {
    if events != [] {
      var n := |events| - 1;
      var front, e := events[..n], events[n];
      RunIsTraced(front);
      RunSnoc(Init(), front, e);
      assert events == front + [e];
      var s := Run(Init(), front);
      StepTracesJobs(front, s, e);
      hide JobTraced, RowTraced, Step;
      forall key ensures RowTraced(events, Step(s, e).db, key) {
        StepTracesRow(front, s, e, key);
      }
    }
  }

  lemma {:induction false} RunSnoc(s: System, events: seq<Event>, e: Event)
    ensures Run(s, events + [e]) == Step(Run(s, events), e)
    decreases |events|
  {
    hide Step;
    if events == [] {
      assert [] + [e] == [e] && [e][1..] == [];
    } else {
      assert (events + [e])[1..] == events[1..] + [e];
      RunSnoc(Step(s, events[0]), events[1..], e);
    }
  }

  // In every run a recorded result was answered by the device for that task, a claimed audio transaction came with an
  // INVITE, and the Notify status is one of the four that completions write.
  lemma {:induction false} RecordsHaveASource(events: seq<Event>, key: string)
    requires OwnsLease(Run(Init(), events).db, key)
    ensures var b := Run(Init(), events).db.tasks[key].summary.binding;
            && (!b.deviceResult.NoResult? ==> DeviceAnswered(events, key, b.deviceResult))
            && (b.audio.callId != "" ==> Invited(events, b.audio))
            && b.notifyStatus in {0, 200, 403, 502}
  {
    RunIsTraced(events);
    hide DeviceAnswered, Invited, Run, Init;
    assert RowTraced(events, Run(Init(), events).db, key);
  }
}
