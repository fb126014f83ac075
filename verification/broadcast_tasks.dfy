// One cascade broadcast task is a media-session row whose JSON summary ("binding") is
// rewritten by several goroutines. Each of them re-reads the row and writes it back only if
// the summary and the state are still the ones it read. A Plan is what a writer decided
// from the row it read; Commit is the conditional UPDATE.
module BroadcastTasks {
  import opened Wrappers
  import TalkLease

  datatype MediaState = Received | Provisioning | Answered | Active | Closing
                      | Closed | Failed | Cancelled | Aborted
  {
    predicate Terminal() {
      Closed? || Failed? || Cancelled? || Aborted?
    }

    predicate AcceptsAudio() {
      Provisioning? || Answered? || Active?
    }

    function Rank(): nat {
      match this
      case Received => 0
      case Provisioning => 1
      case Answered => 2
      case Active => 3
      case Closing => 4
      case _ => 5
    }
  }

  datatype Kind = Video | Broadcast

  datatype DeviceResult = NoResult | Ok | Error

  // The five AudioXxx fields; an empty call id means that no INVITE was claimed yet.
  datatype AudioTransaction = AudioTransaction(callId: string, cseq: nat, fromTag: string, branch: string, requestHash: string)

  // The fields that are written once, when the task is created, and never again.
  datatype Scope = Scope(upstreamSN: int, downstreamSN: int, upstreamSourceId: string,
                         deviceCode: string, channelCode: string,
                         configRevision: nat, projectionRevision: nat, profileVersion: string,
                         publishedChannelId: string, source: string, ownerDeptId: nat)

  datatype Binding = Binding(messageHash: string, notifyStatus: int, deviceResult: DeviceResult,
                             resultDelivered: bool, resultAttemptAt: Option<int>, resultAttempts: nat,
                             localSourceId: string, audioLeaseId: string, audio: AudioTransaction, scope: Scope)

  datatype Summary = Undecodable | Encoded(binding: Binding)

  datatype Task = Task(kind: Kind, cseq: nat, channel: nat, state: MediaState, summary: Summary, receivedAt: int)

  datatype Database = Database(tasks: map<string, Task>, leases: TalkLease.Leases)

  datatype Fault = Missing | BadSummary | EndedDuringNotify | NotActive | ResultChanged | NotRecorded
                 | NotAwaiting | InvalidClaim | NotAccepting | BindingChanged | ClaimedByOther
                 | Denied | RowChanged | StoreFault | InvalidResult | SendFailed

  datatype Outcome = Done | NoChange | Deferred | Refused(fault: Fault)

  // `release` names the lease that the same transaction releases.
  datatype Plan = Refuse(fault: Fault) | Nothing | Wait
                | Write(seen: Task, next: Task, release: Option<string>)

  const NO_AUDIO := AudioTransaction("", 0, "", "", "")
  const SECOND: int := 1_000_000_000
  const PULL_TIMEOUT := 30 * SECOND

  function Find(db: Database, key: string): Option<Task> {
    if key in db.tasks then Some(db.tasks[key]) else None
  }

  // ---- the plans ----

  // updateBroadcast, cascade_broadcast_lease.go:85-114.
  function PlanUpdate(found: Option<Task>, notifyStatus: int, terminal: Option<MediaState>): Plan {
    if found.None? || !found.value.kind.Broadcast? then Refuse(Missing)
    else if found.value.summary.Undecodable? then Refuse(BadSummary)
    else
      var row, b := found.value, found.value.summary.binding;
      var b' := if notifyStatus != 0 && b.notifyStatus == 0 then b.(notifyStatus := notifyStatus) else b;
      match terminal
      case Some(end) =>
        Write(row, row.(summary := Encoded(b'), state := if row.state.Terminal() then row.state else end),
              if b.audioLeaseId != "" then Some(b.audioLeaseId) else None)
      case None =>
        if row.state.Terminal() then Refuse(EndedDuringNotify)
        else Write(row, row.(summary := Encoded(b')), None)
  }

  // recordBroadcastResult, cascade_broadcast_lease.go:131-160.
  function PlanRecord(found: Option<Task>, result: DeviceResult): Plan {
    if result.NoResult? then Refuse(InvalidResult)
    else if found.None? || !found.value.kind.Broadcast? || found.value.state.Terminal() then Refuse(NotActive)
    else if found.value.summary.Undecodable? then Refuse(BadSummary)
    else
      var row, b := found.value, found.value.summary.binding;
      if !b.deviceResult.NoResult? && b.deviceResult != result then Refuse(ResultChanged)
      else Write(row, row.(summary := Encoded(b.(deviceResult := result))),
                 if result.Error? && b.audioLeaseId != "" then Some(b.audioLeaseId) else None)
  }

  // finishBroadcastResult, cascade_broadcast_lease.go:186-213. It releases no lease.
  function PlanFinish(found: Option<Task>, result: DeviceResult): Plan {
    if found.None? || !found.value.kind.Broadcast? then Refuse(Missing)
    else if found.value.summary.Undecodable? then Refuse(BadSummary)
    else
      var row, b := found.value, found.value.summary.binding;
      if b.deviceResult != result then Refuse(NotRecorded)
      else if b.resultDelivered then Nothing
      else
        var next := row.(summary := Encoded(b.(resultDelivered := true)));
        Write(row,
              if result.Error? then next.(state := Failed)
              else if row.state.Provisioning? then next.(state := Answered)
              else next,
              None)
  }

  // The wait after grant number `attempts`, cascade_broadcast_lease.go:246-256.
  function RetryDelay(attempts: nat): int {
    var shift := if attempts <= 1 then 0 else if attempts - 1 > 6 then 6 else attempts - 1;
    var delay := 5 * SECOND * PowerOfTwo(shift);
    if delay > 300 * SECOND then 300 * SECOND else delay
  }

  function PowerOfTwo(n: nat): nat {
    if n == 0 then 1 else 2 * PowerOfTwo(n - 1)
  }

  // claimBroadcastResultDelivery, cascade_broadcast_lease.go:233-265.
  function PlanGrant(found: Option<Task>, at: int): Plan {
    if found.None? || !found.value.kind.Broadcast? || found.value.state.Terminal() then Refuse(NotActive)
    else if found.value.summary.Undecodable? then Refuse(BadSummary)
    else
      var row, b := found.value, found.value.summary.binding;
      if b.deviceResult.NoResult? || b.resultDelivered then Refuse(NotAwaiting)
      else if b.resultAttemptAt.Some? && b.resultAttempts == 0 then Refuse(InvalidClaim)
      else if b.resultAttemptAt.Some? && at < b.resultAttemptAt.value + RetryDelay(b.resultAttempts) then Wait
      else Write(row, row.(summary := Encoded(b.(resultAttemptAt := Some(at), resultAttempts := b.resultAttempts + 1))), None)
  }

  // ---- audio claim, cascade_audio_binding.go ----

  // cascadeBroadcastBindingStable, cascade_audio_binding.go:217-229: result and audio fields are
  // blanked before the comparison.
  function Stable(b: Binding): Binding {
    b.(deviceResult := NoResult, notifyStatus := 0, resultDelivered := false,
       resultAttemptAt := None, resultAttempts := 0, audio := NO_AUDIO)
  }

  predicate BindingStable(a: Binding, b: Binding) {
    Stable(a) == Stable(b)
  }

  // What resolveCascadeBroadcastPull keeps of the row: an empty local source is filled in
  // from the platform's current local device id (cascade_audio_binding.go:65-81).
  function Pull(b: Binding, platformLocalId: string): Binding {
    if b.localSourceId == "" then b.(localSourceId := platformLocalId) else b
  }

  predicate LeaseUsable(db: Database, pulled: Binding, channel: nat, now: int) {
    var id := pulled.audioLeaseId;
    && id in db.leases && db.leases[id].mode.Cascade?
    && !db.leases[id].state.Terminal()
    && now < db.leases[id].expiresAt
    && db.leases[id].channel == channel
    && db.leases[id].device == pulled.scope.deviceCode
    && db.leases[id].target == pulled.scope.channelCode
  }

  // Claim, cascade_audio_binding.go:233-291; `permitted` stands for authorisation and lease validation in the transaction.
  function PlanClaim(found: Option<Task>, pulled: Binding, audio: AudioTransaction, permitted: bool): Plan {
    if pulled.audioLeaseId == "" then Refuse(Missing)
    else if pulled.audio.callId != "" && pulled.audio != audio then Refuse(ClaimedByOther)
    else if !permitted then Refuse(Denied)
    else if found.None? then Refuse(Missing)
    else if !found.value.state.AcceptsAudio() then Refuse(NotAccepting)
    else if found.value.summary.Undecodable? then Refuse(BadSummary)
    else
      var row, live := found.value, found.value.summary.binding;
      if !BindingStable(pulled, live) then Refuse(BindingChanged)
      else if live.audio.callId != "" && live.audio != audio then Refuse(ClaimedByOther)
      else Write(row, row.(summary := Encoded(live.(audio := audio))), None)
  }

  // ---- the conditional UPDATE ----

  function ReleaseNamed(leases: TalkLease.Leases, release: Option<string>): TalkLease.Leases {
    match release
    case None => leases
    case Some(id) => TalkLease.Release(leases, id, TalkLease.Failed)
  }

  predicate Unmoved(db: Database, key: string, seen: Task) {
    key in db.tasks && db.tasks[key].summary == seen.summary && db.tasks[key].state == seen.state
  }

  // WHERE id AND sdp_summary AND state; the lease release rolls back with a refused UPDATE.
  function Commit(db: Database, key: string, plan: Plan): (r: (Database, Outcome)) {
    match plan
    case Refuse(fault) => (db, Refused(fault))
    case Nothing => (db, NoChange)
    case Wait => (db, Deferred)
    case Write(seen, next, release) =>
      if Unmoved(db, key, seen) then
        (Database(db.tasks[key := db.tasks[key].(summary := next.summary, state := next.state)],
                  ReleaseNamed(db.leases, release)), Done)
      else (db, Refused(RowChanged))
  }

  // The audio claim compares the summary but only asks that the state still accepts audio.
  function CommitClaim(db: Database, key: string, plan: Plan): (r: (Database, Outcome)) {
    match plan
    case Refuse(fault) => (db, Refused(fault))
    case Nothing => (db, NoChange)
    case Wait => (db, Deferred)
    case Write(seen, next, release) =>
      if key in db.tasks && db.tasks[key].summary == seen.summary && db.tasks[key].state.AcceptsAudio() then
        (db.(tasks := db.tasks[key := db.tasks[key].(summary := next.summary)]), Done)
      else (db, Refused(BindingChanged))
  }

  // ---- creation ----

  datatype Draft = Draft(messageHash: string, cseq: nat, channel: nat, localSourceId: string, scope: Scope)

  function NewTask(draft: Draft, leaseId: string, receivedAt: int): Task {
    Task(Broadcast, draft.cseq, draft.channel, Provisioning,
         Encoded(Binding(draft.messageHash, 0, NoResult, false, None, 0, draft.localSourceId, leaseId, NO_AUDIO, draft.scope)),
         receivedAt)
  }

  datatype Reservation = Created(db: Database) | Existing(binding: Binding) | Conflict | Busy | Failure

  // acceptExisting, cascade_broadcast_lease.go:29-36.
  function AcceptExisting(existing: Task, draft: Draft): Reservation {
    if existing.summary.Undecodable? || !existing.kind.Broadcast? || existing.cseq != draft.cseq
       || existing.summary.binding.messageHash == "" || existing.summary.binding.messageHash != draft.messageHash
    then Conflict
    else Existing(existing.summary.binding)
  }

  // The insert half of reserveBroadcast; a lost unique-key race re-reads the winner's row.
  function Insert(db: Database, key: string, draft: Draft, leaseId: string, leaseUntil: int, receivedAt: int): Reservation {
    if key in db.tasks then AcceptExisting(db.tasks[key], draft)
    else
      var lease := TalkLease.Reserve(db.leases, leaseId, draft.channel, draft.scope.deviceCode, draft.scope.channelCode, leaseUntil);
      match lease
      case Reserved(leases) => Created(Database(db.tasks[key := NewTask(draft, leaseId, receivedAt)], leases))
      case ChannelBusy => Busy
      case _ => Failure
  }

  // ---- TransitionMediaSession: a compare-and-set on the state alone ----

  predicate CanTransition(from: MediaState, to: MediaState) {
    match from
    case Received => to.Provisioning? || to.Cancelled? || to.Failed? || to.Aborted?
    case Provisioning => to.Answered? || to.Cancelled? || to.Failed? || to.Aborted?
    case Answered => to.Active? || to.Closing? || to.Failed? || to.Aborted?
    case Active => to.Closing? || to.Failed? || to.Aborted?
    case Closing => to.Closed? || to.Failed? || to.Aborted?
    case _ => false
  }

  function Transition(db: Database, key: string, from: MediaState, to: MediaState): (r: (Database, bool)) {
    if CanTransition(from, to) && key in db.tasks && db.tasks[key].state == from
    then (db.(tasks := db.tasks[key := db.tasks[key].(state := to)]), true)
    else (db, false)
  }
}
