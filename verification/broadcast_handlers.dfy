// The two message handlers from end to end, when no other goroutine interferes: the upstream's
// broadcast MESSAGE from its reservation on, and the device's answer. The outcomes of the
// network, of authorisation and of the database are arguments.
module BroadcastHandlers {
  import opened Wrappers
  import opened BroadcastTasks
  import opened BroadcastGrowth
  import opened BroadcastRuns
  import opened BroadcastStore
  import opened BroadcastWriters
  import TalkLease

  // The row ended with this Notify status and its lease is free.
  predicate EndedWith(db: Database, key: string, status: int, state: MediaState) {
    && key in db.tasks && db.tasks[key].summary.Encoded? && db.tasks[key].state == state
    && db.tasks[key].summary.binding.notifyStatus == status
    && !TalkLease.Live(db.leases, db.tasks[key].summary.binding.audioLeaseId)
  }

  // The row waits for the device's answer under a live lease.
  predicate Notified(db: Database, key: string, status: int) {
    && key in db.tasks && db.tasks[key].summary.Encoded? && db.tasks[key].state.Provisioning?
    && db.tasks[key].summary.binding.notifyStatus == status
    && TalkLease.Live(db.leases, db.tasks[key].summary.binding.audioLeaseId)
  }

  // The row of a MESSAGE, untouched but for its Notify status and its state.
  function Drafted(draft: Draft, leaseId: string, receivedAt: int, notifyStatus: int, state: MediaState): Task {
    Task(Broadcast, draft.cseq, draft.channel, state,
         Encoded(Binding(draft.messageHash, notifyStatus, NoResult, false, None, 0, draft.localSourceId, leaseId,
                         AudioTransaction("", 0, "", "", ""), draft.scope)),
         receivedAt)
  }

  function DraftedLease(draft: Draft, leaseUntil: int, state: TalkLease.LeaseState): TalkLease.Lease {
    TalkLease.Lease(TalkLease.Cascade, draft.channel, draft.scope.deviceCode, draft.scope.channelCode, state, leaseUntil)
  }

  // `db` is `start` with the drafted row and its lease.
  ghost predicate Holds(start: Database, db: Database, key: string, draft: Draft, leaseId: string, leaseUntil: int, receivedAt: int,
                        notifyStatus: int, state: MediaState) {
    var lease := if state.Terminal() then TalkLease.LeaseState.Failed else TalkLease.LeaseState.Reserved;
    && db.tasks == start.tasks[key := Drafted(draft, leaseId, receivedAt, notifyStatus, state)]
    && db.leases == start.leases[leaseId := DraftedLease(draft, leaseUntil, lease)]
    && leaseId != ""
  }

  lemma InsertDrafts(db: Database, key: string, draft: Draft, leaseId: string, leaseUntil: int, receivedAt: int)
    ensures var r := Insert(db, key, draft, leaseId, leaseUntil, receivedAt);
            && (r.Created? ==> Holds(db, r.db, key, draft, leaseId, leaseUntil, receivedAt, 0, Provisioning)
                               && Notified(r.db, key, 0))
            && (key !in db.tasks && !r.Created? ==> AnswerStatus(r) in {486, 503})
            && (key in db.tasks ==>
                  var row := db.tasks[key];
                  var same := row.kind.Broadcast? && row.summary.Encoded? && row.cseq == draft.cseq
                              && row.summary.binding.messageHash == draft.messageHash != "";
                  && r == AcceptExisting(row, draft) && !r.Created?
                  && AnswerStatus(r) == if !same then 409 else if row.summary.binding.notifyStatus == 0 then 491 else row.summary.binding.notifyStatus)
  {
    assert |TalkLease.PREFIX| > 0;
  }

  lemma UpdateDrafts(start: Database, db: Database, key: string, draft: Draft, leaseId: string, leaseUntil: int, receivedAt: int,
                     status: int, terminal: Option<MediaState>)
    requires Holds(start, db, key, draft, leaseId, leaseUntil, receivedAt, 0, Provisioning)
    requires terminal.Some? ==> terminal.value.Terminal()
    ensures var r := Commit(db, key, PlanUpdate(Find(db, key), status, terminal));
            var state := if terminal.Some? then terminal.value else Provisioning;
            && r.1.Done? && Holds(start, r.0, key, draft, leaseId, leaseUntil, receivedAt, status, state)
            && (if terminal.Some? then EndedWith(r.0, key, status, state) else Notified(r.0, key, status))
  {
    UpdateLeaves(db, key, Find(db, key), status, terminal);
    assert Commit(db, key, PlanUpdate(Find(db, key), status, terminal)).0.leases
        == ReleaseNamed(db.leases, if terminal.Some? then Some(leaseId) else None);
    hide Commit, PlanUpdate;
  }

  // Handle from the reservation on. `before` and `after` are the two authorisation checks around the Notify,
  // `status` is the device's answer to it, and `fault` says whether the last update fails.
  method HandleMessage(store: Store, key: string, draft: Draft, leaseId: string, leaseUntil: int, receivedAt: int,
                       authorised: bool, before: bool, status: int, after: bool, fault: bool)
    returns (reply: int, sent: bool)
    modifies store
    ensures sent ==> key !in old(store.tasks) && before
    ensures key in old(store.tasks) ==> store.View() == old(store.View()) && reply == AnswerStatus(AcceptExisting(old(store.tasks)[key], draft))
    ensures key in old(store.tasks) ==>
              var row := old(store.tasks)[key];
              var same := row.kind.Broadcast? && row.summary.Encoded? && row.cseq == draft.cseq
                          && row.summary.binding.messageHash == draft.messageHash != "";
              reply == if !same then 409 else if row.summary.binding.notifyStatus == 0 then 491 else row.summary.binding.notifyStatus
    ensures key !in store.tasks ==> store.View() == old(store.View()) && reply in {486, 503}
    ensures key !in old(store.tasks) && key in store.tasks ==>
              match reply
              case 200 => sent && Success(status) && after && Notified(store.View(), key, 200)
              case 403 => sent == before && (!before || (Success(status) && !after)) && (!fault ==> EndedWith(store.View(), key, 403, Aborted))
              case 502 => sent && !Success(status) && (!fault ==> EndedWith(store.View(), key, 502, Failed))
              case 503 => sent && Success(status) && after && fault && Notified(store.View(), key, 0)
              case _ => false
    ensures key !in old(store.tasks) && key in store.tasks ==>
              var ended := reply in {403, 502} && !fault;
              && store.tasks == old(store.tasks)[key :=
                   Drafted(draft, leaseId, receivedAt, if fault then 0 else reply,
                           if !ended then Provisioning else if reply == 403 then Aborted else Failed)]
              && store.leases == old(store.leases)[leaseId :=
                   DraftedLease(draft, leaseUntil, if ended then TalkLease.LeaseState.Failed else TalkLease.LeaseState.Reserved)]
    ensures key in store.tasks <==>
              key in old(store.tasks) || (authorised && old(TalkLease.CanReserve(store.leases, leaseId, draft.channel, draft.scope.deviceCode, draft.scope.channelCode)))
  {
    hide Commit, PlanUpdate, Insert, Drafted, DraftedLease, EndedWith, Notified, TalkLease.CanReserve, AcceptExisting;
    ghost var start := store.View();
    InsertDrafts(start, key, draft, leaseId, leaseUntil, receivedAt);
    var created, r := store.ReserveBroadcast(key, draft, leaseId, leaseUntil, receivedAt, authorised);
    if !created {
      return AnswerStatus(r), false;
    }
    ghost var reserved := store.View();
    if !before {
      UpdateDrafts(start, reserved, key, draft, leaseId, leaseUntil, receivedAt, 403, Some(Aborted));
      var _ := store.UpdateBroadcast(key, 403, Some(Aborted), fault);
      return 403, false;
    }
    if status < 200 || status >= 300 {
      UpdateDrafts(start, reserved, key, draft, leaseId, leaseUntil, receivedAt, 502, Some(Failed));
      var _ := store.UpdateBroadcast(key, 502, Some(Failed), fault);
      return 502, true;
    }
    if !after {
      UpdateDrafts(start, reserved, key, draft, leaseId, leaseUntil, receivedAt, 403, Some(Aborted));
      var _ := store.UpdateBroadcast(key, 403, Some(Aborted), fault);
      return 403, true;
    }
    UpdateDrafts(start, reserved, key, draft, leaseId, leaseUntil, receivedAt, 200, None);
    var saved := store.UpdateBroadcast(key, 200, None, fault);
    if !saved.Done? {
      return 503, true;
    }
    return 200, true;
  }

  // What the record of a device answer leaves: the result, and on ERROR a free lease.
  predicate Recorded(db: Database, key: string, result: DeviceResult) {
    && OwnsLease(db, key) && db.tasks[key].summary.binding.deviceResult == result
    && (result.Error? ==> !TalkLease.Live(db.leases, db.tasks[key].summary.binding.audioLeaseId))
  }

  function BindingOf(db: Database, key: string): Binding
    requires OwnsLease(db, key)
  {
    db.tasks[key].summary.binding
  }

  predicate OnlyRowChanged(a: Database, b: Database, key: string) {
    forall other :: other in a.tasks && other != key ==> other in b.tasks && b.tasks[other] == a.tasks[other]
  }

  // One commit moved the row on: only this row, whose attempts, time and state became these.
  predicate Moved(a: Database, b: Database, key: string, attempts: nat, at: Option<int>, delivered: bool, state: MediaState) {
    && OwnsLease(b, key) && OnlyRowChanged(a, b, key)
    && BindingOf(b, key).resultAttempts == attempts && BindingOf(b, key).resultAttemptAt == at
    && BindingOf(b, key).resultDelivered == delivered && b.tasks[key].state == state
  }

  lemma RecordMoves(db: Database, key: string, result: DeviceResult)
    requires OwnsLease(db, key) && BindingOf(db, key).audioLeaseId in db.leases && !result.NoResult?
    requires db.leases[BindingOf(db, key).audioLeaseId].mode.Cascade? && BindingOf(db, key).audioLeaseId != ""
    ensures var r := Commit(db, key, PlanRecord(Find(db, key), result)); var b := BindingOf(db, key);
            && Moved(db, r.0, key, b.resultAttempts, b.resultAttemptAt, b.resultDelivered, db.tasks[key].state)
            && (r.1.Done? ==> Recorded(r.0, key, result))
            && (r.1.Done? <==> !db.tasks[key].state.Terminal() && (b.deviceResult.NoResult? || b.deviceResult == result))
  {
  }

  lemma GrantMoves(db: Database, key: string, result: DeviceResult, at: int)
    requires Recorded(db, key, result) && !result.NoResult?
    ensures var r := Commit(db, key, PlanGrant(Find(db, key), at)); var b := BindingOf(db, key);
            && (r.1.Done? ==> Moved(db, r.0, key, b.resultAttempts + 1, Some(at), b.resultDelivered, db.tasks[key].state))
            && (!r.1.Done? ==> r.0 == db)
            && Recorded(r.0, key, result)
            && (r.1.Done? <==> !db.tasks[key].state.Terminal() && !b.resultDelivered && RetryDue(b.resultAttemptAt, b.resultAttempts, at))
  {
    hide RetryDelay;
  }

  // The retry clock allows another attempt: none was made, or the last one is long enough ago.
  predicate RetryDue(last: Option<int>, attempts: nat, at: int) {
    last.Some? ==> attempts > 0 && at >= last.value + RetryDelay(attempts)
  }

  lemma FinishMoves(db: Database, key: string, result: DeviceResult)
    requires Recorded(db, key, result) && !BindingOf(db, key).resultDelivered
    ensures var r := Commit(db, key, PlanFinish(Find(db, key), result)); var b := BindingOf(db, key);
            && r.1.Done? && Recorded(r.0, key, result)
            && Moved(db, r.0, key, b.resultAttempts, b.resultAttemptAt, true,
                     if result.Error? then Failed else if db.tasks[key].state.Provisioning? then Answered else db.tasks[key].state)
  {
  }

  lemma MovedFacts(a: Database, b: Database, key: string, attempts: nat, at: Option<int>, delivered: bool, state: MediaState)
    requires Moved(a, b, key, attempts, at, delivered, state)
    ensures OwnsLease(b, key) && BindingOf(b, key).resultAttempts == attempts && BindingOf(b, key).resultAttemptAt == at
    ensures BindingOf(b, key).resultDelivered == delivered && b.tasks[key].state == state
  {
  }

  lemma MovedTrans(a: Database, b: Database, c: Database, key: string, n: nat, t: Option<int>, d: bool, x: MediaState,
                   attempts: nat, at: Option<int>, delivered: bool, state: MediaState)
    requires Moved(a, b, key, n, t, d, x) && Moved(b, c, key, attempts, at, delivered, state)
    ensures Moved(a, c, key, attempts, at, delivered, state)
  {
  }

  lemma MovedRefl(db: Database, key: string)
    requires OwnsLease(db, key)
    ensures var b := BindingOf(db, key); Moved(db, db, key, b.resultAttempts, b.resultAttemptAt, b.resultDelivered, db.tasks[key].state)
  {
  }

  // RouteBroadcastMessage once the open row is found and authorised: record, claim, send, finish.
  // A true `quiet` means that the audio dialog of a refused task came to its end in time; a grant whose answer
  // could not even be built counts as not accepted.
  method RouteResult(store: Store, key: string, result: DeviceResult, at: int, quiet: bool, accepted: bool, faults: (bool, bool, bool))
    returns (granted: bool, finished: bool)
    requires DatabaseInv(store.View()) && OwnsLease(store.View(), key) && !result.NoResult?
    modifies store
    ensures var b, state := old(BindingOf(store.View(), key)), old(store.tasks)[key].state;
            Moved(old(store.View()), store.View(), key,
                  if granted then b.resultAttempts + 1 else b.resultAttempts,
                  if granted then Some(at) else b.resultAttemptAt,
                  finished || b.resultDelivered,
                  if !finished then state
                  else if result.Error? then Failed
                  else if state.Provisioning? then Answered
                  else state)
    ensures granted ==> Recorded(store.View(), key, result) && !old(BindingOf(store.View(), key)).resultDelivered
    ensures finished <==> granted && accepted && !faults.2
    ensures granted <==>
              var b, state := old(BindingOf(store.View(), key)), old(store.tasks)[key].state;
              && !faults.0 && !faults.1 && (result.Error? ==> quiet)
              && !state.Terminal() && (b.deviceResult.NoResult? || b.deviceResult == result) && !b.resultDelivered
              && RetryDue(b.resultAttemptAt, b.resultAttempts, at)
  {
    ghost var start := store.View();
    MovedRefl(start, key);
    ghost var b0, state := BindingOf(start, key), start.tasks[key].state;
    assert Registered(start);
    RecordMoves(start, key, result);
    hide Commit, PlanRecord, PlanGrant, PlanFinish, Recorded, DatabaseInv, Registered, Moved, RetryDue;
    var binding := store.tasks[key].summary.binding;
    if !binding.deviceResult.NoResult? && binding.deviceResult != result {
      return false, false;
    }
    if binding.resultDelivered {
      return false, false;
    }
    if result.Error? && !quiet {
      return false, false;
    }
    var recorded := store.RecordBroadcastResult(key, result, faults.0);
    if !recorded.Done? {
      return false, false;
    }
    ghost var second := store.View();
    MovedFacts(start, second, key, b0.resultAttempts, b0.resultAttemptAt, false, state);
    GrantMoves(second, key, result, at);
    var claimed := store.ClaimBroadcastResultDelivery(key, at, faults.1);
    if !claimed.Done? {
      return false, false;
    }
    ghost var third := store.View();
    MovedTrans(start, second, third, key, b0.resultAttempts, b0.resultAttemptAt, false, state, b0.resultAttempts + 1, Some(at), false, state);
    if !accepted {
      return true, false;
    }
    MovedFacts(start, third, key, b0.resultAttempts + 1, Some(at), false, state);
    FinishMoves(third, key, result);
    ghost var end := if result.Error? then Failed else if state.Provisioning? then Answered else state;
    var done := store.FinishBroadcastResult(key, result, faults.2);
    if done.Done? {
      MovedTrans(start, third, store.View(), key, b0.resultAttempts + 1, Some(at), false, state, b0.resultAttempts + 1, Some(at), true, end);
    }
    return true, done.Done?;
  }
}
