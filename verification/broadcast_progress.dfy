// What one goroutine brings about when no other one comes between its steps: the messages that it sends and the row
// that it leaves, for every answer of the environment.
module BroadcastProgress {
  import opened Wrappers
  import opened BroadcastTasks
  import opened BroadcastGrowth
  import opened BroadcastRuns
  import opened BroadcastWriters
  import opened BroadcastHandlers
  import TalkLease

  lemma RunUnfolds(s: System, events: seq<Event>)
    requires events != []
    ensures Run(s, events) == Run(Step(s, events[0]), events[1..])
    ensures |events| == 1 ==> Run(s, events) == Step(s, events[0])
  {
  }

  // Job `id` now stands here; the tables, the wire and the other jobs may be read off `s`.
  ghost predicate At(s: System, id: nat, job: Job) {
    id in s.jobs && s.jobs[id] == job
  }

  // ---- a device's answer on its way upstream ----

  // The row with the result recorded, this many attempts, and perhaps delivered.
  function Recorded(row: Task, result: DeviceResult, delivered: bool, attemptAt: Option<int>, attempts: nat, state: MediaState): Task
    requires row.summary.Encoded?
  {
    var b := row.summary.binding;
    Task(row.kind, row.cseq, row.channel, state,
         Encoded(With(b, b.notifyStatus, result, delivered, attemptAt, attempts, b.audio)), row.receivedAt)
  }

  lemma RecordSteps(s: System, id: nat, key: string, result: DeviceResult)
    requires id !in s.jobs && OwnsLease(s.db, key) && !s.db.tasks[key].state.Terminal() && !result.NoResult?
    requires s.db.tasks[key].summary.binding.deviceResult in {NoResult, result}
    ensures var t := Step(Step(s, ReadRecord(id, key, result)), CommitRecord(id));
            var row, b := s.db.tasks[key], s.db.tasks[key].summary.binding;
            && At(t, id, GrantDue(key, result)) && t.wire == s.wire && t.grants == s.grants
            && t.db.tasks == s.db.tasks[key := Recorded(row, result, b.resultDelivered, b.resultAttemptAt, b.resultAttempts, row.state)]
  {
    hide Commit, PlanRecord;
    var s1 := Step(s, ReadRecord(id, key, result));
    assert s1.db == s.db && s1.wire == s.wire && s1.grants == s.grants && At(s1, id, Recording(key, result, Find(s.db, key)));
    RecordLeaves(s1.db, key, Find(s.db, key), result);
    WriterOf(s1, CommitRecord(id));
    hide EffectOf;
  }

  lemma GrantSteps(s: System, id: nat, key: string, result: DeviceResult, at: int)
    requires At(s, id, GrantDue(key, result)) && OwnsLease(s.db, key) && !s.db.tasks[key].state.Terminal() && !result.NoResult?
    requires var b := s.db.tasks[key].summary.binding;
             b.deviceResult == result && !b.resultDelivered && RetryDue(b.resultAttemptAt, b.resultAttempts, at)
    ensures var t := Step(Step(s, ReadGrant(id, at)), CommitGrant(id));
            var row, b := s.db.tasks[key], s.db.tasks[key].summary.binding;
            && At(t, id, Delivering(key, result)) && t.wire == s.wire && Grants(t, key) == Grants(s, key) + [at]
            && t.db.tasks == s.db.tasks[key := Recorded(row, result, false, Some(at), b.resultAttempts + 1, row.state)]
  {
    hide EffectOf, Commit, PlanGrant, RetryDelay;
    GrantIsRead(s, id, key, result, at);
    var s1 := Step(s, ReadGrant(id, at));
    GrantLeaves(s1.db, key, Find(s.db, key), at);
    WriterOf(s1, CommitGrant(id));
  }

  lemma GrantIsRead(s: System, id: nat, key: string, result: DeviceResult, at: int)
    requires At(s, id, GrantDue(key, result))
    ensures var t := Step(s, ReadGrant(id, at));
            t.db == s.db && t.wire == s.wire && t.grants == s.grants && At(t, id, Granting(key, result, at, Find(s.db, key)))
  {
  }

  lemma SendStep(s: System, id: nat, key: string, result: DeviceResult, status: int)
    requires At(s, id, Delivering(key, result))
    ensures var t := Step(s, SendUpstream(id, status));
            && t.db == s.db && t.grants == s.grants && t.wire == s.wire + [Upstream(key, result, status)]
            && (if 200 <= status < 300 then At(t, id, FinishDue(key, result)) else id !in t.jobs)
  {
  }

  lemma FinishSteps(s: System, id: nat, key: string, result: DeviceResult)
    requires At(s, id, FinishDue(key, result)) && OwnsLease(s.db, key)
    requires s.db.tasks[key].summary.binding.deviceResult == result && !s.db.tasks[key].summary.binding.resultDelivered
    ensures var t := Step(Step(s, ReadFinish(id)), CommitFinish(id));
            var row, b := s.db.tasks[key], s.db.tasks[key].summary.binding;
            && id !in t.jobs && t.wire == s.wire && t.grants == s.grants
            && t.db.tasks == s.db.tasks[key := Recorded(row, result, true, b.resultAttemptAt, b.resultAttempts,
                 if result.Error? then Failed else if row.state.Provisioning? then Answered else row.state)]
  {
    hide Commit, PlanFinish;
    var s1 := Step(s, ReadFinish(id));
    assert s1.db == s.db && s1.wire == s.wire && s1.grants == s.grants && At(s1, id, Finishing(key, result, Find(s.db, key)));
    FinishLeaves(s1.db, key, Find(s.db, key), result);
    WriterOf(s1, CommitFinish(id));
    hide EffectOf;
  }

  function Delivery(id: nat, key: string, result: DeviceResult, at: int, status: int): seq<Event> {
    [ReadRecord(id, key, result), CommitRecord(id), ReadGrant(id, at), CommitGrant(id), SendUpstream(id, status)]
    + (if 200 <= status < 300 then [ReadFinish(id), CommitFinish(id)] else [])
  }

  // The state in which the attempt has been granted and the result is about to go upstream.
  ghost predicate Granted(s: System, t: System, id: nat, key: string, result: DeviceResult, at: int)
    requires OwnsLease(s.db, key)
  {
    var row, b := s.db.tasks[key], s.db.tasks[key].summary.binding;
    && At(t, id, Delivering(key, result)) && t.wire == s.wire && Grants(t, key) == Grants(s, key) + [at]
    && t.db.tasks == s.db.tasks[key := Recorded(row, result, false, Some(at), b.resultAttempts + 1, row.state)]
  }

  // An open task that waits for this result, and whose retry clock allows an attempt.
  ghost predicate Waits(s: System, id: nat, key: string, result: DeviceResult, at: int) {
    && id !in s.jobs && OwnsLease(s.db, key) && !s.db.tasks[key].state.Terminal() && !result.NoResult?
    && var b := s.db.tasks[key].summary.binding;
       b.deviceResult in {NoResult, result} && !b.resultDelivered && RetryDue(b.resultAttemptAt, b.resultAttempts, at)
  }

  lemma ResultIsGranted(s: System, id: nat, key: string, result: DeviceResult, at: int)
    requires Waits(s, id, key, result, at)
    ensures Granted(s, Step(Step(Step(Step(s, ReadRecord(id, key, result)), CommitRecord(id)), ReadGrant(id, at)), CommitGrant(id)), id, key, result, at)
  {
    hide Step, RetryDue;
    RecordSteps(s, id, key, result);
    GrantSteps(Step(Step(s, ReadRecord(id, key, result)), CommitRecord(id)), id, key, result, at);
  }

  // What is on the wire and in the row after the send, when its answer was not, and when it was accepted.
  ghost predicate Forwarded(s: System, t: System, id: nat, key: string, result: DeviceResult, at: int, status: int)
    requires OwnsLease(s.db, key)
  {
    var row, b := s.db.tasks[key], s.db.tasks[key].summary.binding;
    var accepted := 200 <= status < 300;
    && id !in t.jobs && t.wire == s.wire + [Upstream(key, result, status)] && Grants(t, key) == Grants(s, key) + [at]
    && t.db.tasks == s.db.tasks[key := Recorded(row, result, accepted, Some(at), b.resultAttempts + 1,
         if !accepted then row.state else if result.Error? then Failed else if row.state.Provisioning? then Answered else row.state)]
  }

  lemma AcceptedIsFinished(s: System, g: System, id: nat, key: string, result: DeviceResult, at: int, status: int)
    requires OwnsLease(s.db, key) && Granted(s, g, id, key, result, at) && 200 <= status < 300
    ensures Forwarded(s, Step(Step(Step(g, SendUpstream(id, status)), ReadFinish(id)), CommitFinish(id)), id, key, result, at, status)
  {
    hide Step;
    SendStep(g, id, key, result, status);
    FinishSteps(Step(g, SendUpstream(id, status)), id, key, result);
  }

  lemma RefusedIsLeft(s: System, g: System, id: nat, key: string, result: DeviceResult, at: int, status: int)
    requires OwnsLease(s.db, key) && Granted(s, g, id, key, result, at) && !(200 <= status < 300)
    ensures Forwarded(s, Step(g, SendUpstream(id, status)), id, key, result, at, status)
  {
    hide Step;
    SendStep(g, id, key, result, status);
  }

  lemma RunOfFour(s: System, e: seq<Event>)
    requires |e| >= 4
    ensures Run(s, e) == Run(Step(Step(Step(Step(s, e[0]), e[1]), e[2]), e[3]), e[4..])
  {
    hide Step;
    var s1 := Step(s, e[0]);
    var s2 := Step(s1, e[1]);
    var s3 := Step(s2, e[2]);
    RunUnfolds(s, e); RunUnfolds(s1, e[1..]); RunUnfolds(s2, e[1..][1..]); RunUnfolds(s3, e[1..][1..][1..]);
    assert e[1..][1..][1..][1..] == e[4..];
  }

  // A device's answer for an open task whose retry clock allows an attempt is recorded, granted and sent upstream once;
  // if that is accepted the row is delivered and moves on, and if not it keeps the attempt and waits.
  lemma {:induction false} AnswerIsForwarded(s: System, id: nat, key: string, result: DeviceResult, at: int, status: int)
    requires Waits(s, id, key, result, at)
    ensures Forwarded(s, Run(s, Delivery(id, key, result, at, status)), id, key, result, at, status)
  {
    hide Step, Granted, Forwarded;
    var e := Delivery(id, key, result, at, status);
    ResultIsGranted(s, id, key, result, at);
    RunOfFour(s, e);
    var g := Step(Step(Step(Step(s, e[0]), e[1]), e[2]), e[3]);
    var rest := e[4..];
    RunUnfolds(g, rest);
    if 200 <= status < 300 {
      assert rest == [SendUpstream(id, status), ReadFinish(id), CommitFinish(id)];
      AcceptedIsFinished(s, g, id, key, result, at, status);
      RunUnfolds(Step(g, rest[0]), rest[1..]);
      RunUnfolds(Step(Step(g, rest[0]), rest[1]), rest[2..]);
    } else {
      assert rest == [SendUpstream(id, status)];
      RefusedIsLeft(s, g, id, key, result, at, status);
    }
  }

  // Recovery and sweep take up exactly the open rows whose recorded result was not delivered.
  lemma ListedExactly(s: System, id: nat, key: string)
    requires id !in s.jobs && OwnsLease(s.db, key)
    ensures var t, row, b := Step(s, ListPending(id, key)), s.db.tasks[key], s.db.tasks[key].summary.binding;
            && t.db == s.db && t.wire == s.wire
            && (if !row.state.Terminal() && !b.deviceResult.NoResult? && !b.resultDelivered
                then At(t, id, GrantDue(key, b.deviceResult)) else t.jobs == s.jobs)
  {
  }

  // ---- the end of a task ----

  // A task that is ended by recovery, sweep or the end of its audio dialog keeps its row but for the state, which only
  // an open one takes, and its lease has failed.
  lemma {:induction false} TaskIsEnded(s: System, id: nat, key: string, end: MediaState)
    requires id !in s.jobs && OwnsLease(s.db, key) && end.Terminal()
    ensures var t := Run(s, [StartUpdate(id, key, end), ReadUpdate(id), CommitUpdate(id)]);
            var row := s.db.tasks[key];
            && t.db.tasks == s.db.tasks[key := row.(state := if row.state.Terminal() then row.state else end)]
            && Freed(s.db.leases, t.db.leases, row.summary.binding.audioLeaseId) && t.wire == s.wire
  {
    var e := [StartUpdate(id, key, end), ReadUpdate(id), CommitUpdate(id)];
    EndingStarts(s, id, key, end);
    EndingCommits(Step(Step(s, e[0]), e[1]), id, key, end);
    hide Step, Freed;
    var s1 := Step(s, e[0]);
    var s2 := Step(s1, e[1]);
    RunUnfolds(s, e); RunUnfolds(s1, e[1..]); RunUnfolds(s2, e[2..]);
  }

  lemma EndingStarts(s: System, id: nat, key: string, end: MediaState)
    requires id !in s.jobs && OwnsLease(s.db, key) && end.Terminal()
    ensures var t := Step(Step(s, StartUpdate(id, key, end)), ReadUpdate(id));
            t.db == s.db && t.wire == s.wire && At(t, id, Updating(key, 0, Some(end), None, Some(s.db.tasks[key])))
  {
    var s1 := Step(s, StartUpdate(id, key, end));
    assert s1.db == s.db && s1.wire == s.wire && At(s1, id, UpdateDue(key, 0, Some(end), None));
  }

  lemma EndingCommits(s: System, id: nat, key: string, end: MediaState)
    requires OwnsLease(s.db, key) && end.Terminal() && At(s, id, Updating(key, 0, Some(end), None, Some(s.db.tasks[key])))
    ensures var t, row := Step(s, CommitUpdate(id)), s.db.tasks[key];
            && t.db.tasks == s.db.tasks[key := row.(state := if row.state.Terminal() then row.state else end)]
            && Freed(s.db.leases, t.db.leases, row.summary.binding.audioLeaseId) && t.wire == s.wire
  {
    hide Commit, PlanUpdate, Freed;
    UpdateLeaves(s.db, key, Some(s.db.tasks[key]), 0, Some(end));
    WriterOf(s, CommitUpdate(id));
    hide EffectOf;
  }

  // ---- an upstream's MESSAGE ----

  lemma ReserveSteps(s: System, id: nat, key: string, draft: Draft, leaseId: string, leaseUntil: int, receivedAt: int)
    requires id !in s.jobs && key !in s.db.tasks
    requires TalkLease.CanReserve(s.db.leases, leaseId, draft.channel, draft.scope.deviceCode, draft.scope.channelCode)
    ensures var t := Step(Step(s, ReadReservation(id, key, draft, true)), CommitReservation(id, leaseId, leaseUntil, receivedAt));
            && At(t, id, Notifying(key, draft.messageHash)) && t.wire == s.wire
            && Holds(s.db, t.db, key, draft, leaseId, leaseUntil, receivedAt, 0, Provisioning)
  {
    var s1 := Step(s, ReadReservation(id, key, draft, true));
    assert s1.db == s.db && s1.wire == s.wire && At(s1, id, Reserving(key, draft));
    InsertDrafts(s1.db, key, draft, leaseId, leaseUntil, receivedAt);
    InsertSucceeds(s1.db, key, draft, leaseId, leaseUntil, receivedAt);
    WriterOf(s1, CommitReservation(id, leaseId, leaseUntil, receivedAt));
    hide EffectOf, Insert, Holds, Notified;
  }

  lemma InsertSucceeds(db: Database, key: string, draft: Draft, leaseId: string, leaseUntil: int, receivedAt: int)
    requires key !in db.tasks && TalkLease.CanReserve(db.leases, leaseId, draft.channel, draft.scope.deviceCode, draft.scope.channelCode)
    ensures Insert(db, key, draft, leaseId, leaseUntil, receivedAt).Created?
  {
  }

  // The answer to the upstream, the status that is stored and the state that the row takes.
  function Answer(before: bool, status: int, after: bool): int {
    if !before then 403 else if !(200 <= status < 300) then 502 else if !after then 403 else 200
  }

  function Ending(answer: int): Option<MediaState> {
    if answer == 200 then None else if answer == 403 then Some(Aborted) else Some(Failed)
  }

  lemma NotifyStep(s: System, id: nat, key: string, hash: string, before: bool, status: int, after: bool)
    requires At(s, id, Notifying(key, hash))
    ensures var t := Step(s, SendNotify(id, before, status, after));
            var answer := Answer(before, status, after);
            && t.db == s.db && t.wire == s.wire + (if before then [Notify(key, status)] else [])
            && id in t.jobs && t.jobs[id].UpdateDue? && t.jobs[id].key == key && t.jobs[id].status == answer
            && t.jobs[id].terminal == Ending(answer) && t.jobs[id].reply.Some?
            && t.jobs[id].reply.value == Promise(hash, answer, if answer == 200 then 503 else answer)
  {
    assert s.wire + [] == s.wire;
  }

  // The upstream is told 200, 403 or 502 if the row is as it was read, and open for a 200; a 200 becomes 503 otherwise.
  lemma UpdateIsReplied(s: System, id: nat)
    requires id in s.jobs && s.jobs[id].Updating? && s.jobs[id].reply.Some?
    ensures var Updating(key, _, terminal, reply, seen) := s.jobs[id];
            var saved := Current(s.db, key, seen) && (terminal.None? ==> !s.db.tasks[key].state.Terminal());
            var t := Step(s, CommitUpdate(id));
            && t.wire == s.wire + [Reply(key, reply.value.hash, if saved then reply.value.done else reply.value.failed)]
            && id !in t.jobs && (saved || t.db == s.db)
  {
    hide Commit, PlanUpdate;
    var Updating(key, status, terminal, _, seen) := s.jobs[id];
    UpdateLeaves(s.db, key, seen, status, terminal);
    WriterOf(s, CommitUpdate(id));
    hide EffectOf, Current;
  }

  lemma UpdateSteps(s: System, id: nat, start: Database, key: string, draft: Draft, leaseId: string, leaseUntil: int, receivedAt: int)
    requires Holds(start, s.db, key, draft, leaseId, leaseUntil, receivedAt, 0, Provisioning)
    requires id in s.jobs && s.jobs[id].UpdateDue? && s.jobs[id].key == key && s.jobs[id].reply.Some?
    requires s.jobs[id].terminal.Some? ==> s.jobs[id].terminal.value.Terminal()
    ensures var t := Step(Step(s, ReadUpdate(id)), CommitUpdate(id));
            var UpdateDue(_, status, terminal, reply) := s.jobs[id];
            && t.wire == s.wire + [Reply(key, reply.value.hash, reply.value.done)]
            && Holds(start, t.db, key, draft, leaseId, leaseUntil, receivedAt, status, if terminal.Some? then terminal.value else Provisioning)
  {
    var UpdateDue(_, status, terminal, reply) := s.jobs[id];
    var s1 := Step(s, ReadUpdate(id));
    assert s1.db == s.db && s1.wire == s.wire && At(s1, id, Updating(key, status, terminal, reply, Find(s.db, key)));
    UpdateDrafts(start, s1.db, key, draft, leaseId, leaseUntil, receivedAt, status, terminal);
    WriterOf(s1, CommitUpdate(id));
    hide EffectOf, Commit, PlanUpdate, Holds, EndedWith, Notified;
  }

  function Message(id: nat, key: string, draft: Draft, leaseId: string, leaseUntil: int, receivedAt: int,
                   before: bool, status: int, after: bool): seq<Event> {
    [ReadReservation(id, key, draft, true), CommitReservation(id, leaseId, leaseUntil, receivedAt),
     SendNotify(id, before, status, after), ReadUpdate(id), CommitUpdate(id)]
  }

  // A new MESSAGE with a free channel is reserved, sent to the device at most once, and answered 200, 403 or 502; the
  // row is the drafted one with that status, open only for 200.
  lemma {:induction false} MessageIsAnswered(s: System, id: nat, key: string, draft: Draft, leaseId: string, leaseUntil: int,
                                             receivedAt: int, before: bool, status: int, after: bool)
    requires id !in s.jobs && key !in s.db.tasks
    requires TalkLease.CanReserve(s.db.leases, leaseId, draft.channel, draft.scope.deviceCode, draft.scope.channelCode)
    ensures var t := Run(s, Message(id, key, draft, leaseId, leaseUntil, receivedAt, before, status, after));
            var answer := Answer(before, status, after);
            && t.wire == s.wire + (if before then [Notify(key, status)] else []) + [Reply(key, draft.messageHash, answer)]
            && t.db.tasks == s.db.tasks[key := Drafted(draft, leaseId, receivedAt, answer,
                 if answer == 200 then Provisioning else if answer == 403 then Aborted else Failed)]
  {
    hide Step, Drafted, DraftedLease, TalkLease.CanReserve;
    var e := Message(id, key, draft, leaseId, leaseUntil, receivedAt, before, status, after);
    ReserveSteps(s, id, key, draft, leaseId, leaseUntil, receivedAt);
    var s1 := Step(s, e[0]);
    var s2 := Step(s1, e[1]);
    NotifyStep(s2, id, key, draft.messageHash, before, status, after);
    var s3 := Step(s2, e[2]);
    UpdateSteps(s3, id, s.db, key, draft, leaseId, leaseUntil, receivedAt);
    var s4 := Step(s3, e[3]);
    RunUnfolds(s, e); RunUnfolds(s1, e[1..]); RunUnfolds(s2, e[2..]); RunUnfolds(s3, e[3..]); RunUnfolds(s4, e[4..]);
  }

  // ---- an audio INVITE, and the activation of the row ----

  // The lease that the row names is a live cascade lease for its own device and channel.
  predicate LeaseHolds(db: Database, row: Task, now: int)
    requires row.summary.Encoded?
  {
    var b := row.summary.binding;
    && b.audioLeaseId in db.leases
    && (var lease := db.leases[b.audioLeaseId];
        && lease.mode.Cascade? && !lease.state.Terminal() && now < lease.expiresAt && lease.channel == row.channel
        && lease.device == b.scope.deviceCode && lease.target == b.scope.channelCode)
  }

  lemma ResolveStep(s: System, id: nat, key: string, localId: string)
    requires id !in s.jobs && OwnsLease(s.db, key) && s.db.tasks[key].state in {Provisioning, MediaState.Answered, MediaState.Active}
    ensures var t := Step(s, Resolve(id, key, localId));
            t.db == s.db && At(t, id, Pulled(key, Pull(s.db.tasks[key].summary.binding, localId), localId))
  {
  }

  // The permission that a claim carries is authorisation and a usable lease, read in its own transaction.
  lemma ClaimIsPermittedExactly(s: System, id: nat, key: string, localId: string, audio: AudioTransaction, authorised: bool, now: int)
    requires id !in s.jobs && OwnsLease(s.db, key) && s.db.tasks[key].state in {Provisioning, MediaState.Answered, MediaState.Active}
    ensures var t := Step(Step(s, Resolve(id, key, localId)), ReadClaim(id, audio, authorised, now));
            && t.db == s.db && id in t.jobs && t.jobs[id].Claiming? && t.jobs[id].key == key && t.jobs[id].audio == audio
            && t.jobs[id].seen == Some(s.db.tasks[key])
            && (t.jobs[id].permitted <==> authorised && LeaseHolds(s.db, s.db.tasks[key], now))
  {
    ResolveStep(s, id, key, localId);
    PermissionStep(Step(s, Resolve(id, key, localId)), id, key, localId, audio, authorised, now);
    hide Step, LeaseHolds;
  }

  lemma PermissionStep(s: System, id: nat, key: string, localId: string, audio: AudioTransaction, authorised: bool, now: int)
    requires OwnsLease(s.db, key) && At(s, id, Pulled(key, Pull(s.db.tasks[key].summary.binding, localId), localId))
    ensures var t := Step(s, ReadClaim(id, audio, authorised, now));
            && t.db == s.db && id in t.jobs && t.jobs[id].Claiming? && t.jobs[id].key == key && t.jobs[id].audio == audio
            && t.jobs[id].seen == Some(s.db.tasks[key])
            && (t.jobs[id].permitted <==> authorised && LeaseHolds(s.db, s.db.tasks[key], now))
  {
  }

  // The row with its state moved one step towards Active, if it still stands where it was read.
  function Moved(row: Task): Task {
    if row.state.Provisioning? then row.(state := MediaState.Answered)
    else if row.state.Answered? then row.(state := MediaState.Active)
    else row
  }

  lemma ActivationStep(s: System, id: nat, key: string, seen: MediaState)
    requires At(s, id, Activating(key, seen)) && key in s.db.tasks && s.db.tasks[key].state == seen
    ensures var t := Step(s, CommitState(id));
            && t.db == s.db.(tasks := s.db.tasks[key := Moved(s.db.tasks[key])])
            && (seen.Provisioning? ==> At(t, id, Activating(key, MediaState.Answered)))
            && (!seen.Provisioning? ==> id !in t.jobs)
  {
    assert s.db.tasks == s.db.tasks[key := s.db.tasks[key]];
  }

  // An activation that nothing interrupts takes an open task to Active and leaves an active or ended one alone.
  lemma {:induction false} ActivationMovesOn(s: System, id: nat, key: string)
    requires id !in s.jobs && key in s.db.tasks && s.db.tasks[key].kind.Broadcast?
    ensures var t := Run(s, [ReadState(id, key), CommitState(id), CommitState(id)]);
            && t.db.leases == s.db.leases
            && t.db.tasks == if s.db.tasks[key].state in {Provisioning, MediaState.Answered}
                             then s.db.tasks[key := s.db.tasks[key].(state := MediaState.Active)] else s.db.tasks
  {
    var e := [ReadState(id, key), CommitState(id), CommitState(id)];
    var s1 := Step(s, e[0]);
    StateStep(s, id, key);
    hide Step;
    ActivationStep(s1, id, key, s.db.tasks[key].state);
    var s2 := Step(s1, e[1]);
    RunUnfolds(s, e); RunUnfolds(s1, e[1..]); RunUnfolds(s2, e[2..]);
    if s.db.tasks[key].state.Provisioning? {
      ActivationStep(s2, id, key, MediaState.Answered);
    } else {
      IdleStep(s2, id);
    }
    assert s.db.tasks == s.db.tasks[key := s.db.tasks[key]];
  }

  lemma StateStep(s: System, id: nat, key: string)
    requires id !in s.jobs && key in s.db.tasks && s.db.tasks[key].kind.Broadcast?
    ensures var t := Step(s, ReadState(id, key)); t.db == s.db && At(t, id, Activating(key, s.db.tasks[key].state))
  {
  }

  lemma IdleStep(s: System, id: nat)
    requires id !in s.jobs
    ensures Step(s, CommitState(id)).db == s.db
  {
  }

  // A crash of one goroutine loses what it knew, and nothing that it wrote or sent.
  lemma CrashLosesTheJob(s: System, id: nat)
    ensures var t := Step(s, Die(id)); t == s.(jobs := s.jobs - {id})
  {
  }
}
