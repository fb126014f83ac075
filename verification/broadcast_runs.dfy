// All interleavings of the goroutines that work on broadcast tasks. A job is one goroutine
// between two database or network actions; it keeps the row it read, so the UPDATE that
// follows may find the row changed. An event is one action of one job, with every outcome
// the environment chooses (statuses, clocks, authorisation) as an argument. Killing a job
// at any point models a crash, a cancelled context or a lost commit acknowledgement.
module BroadcastRuns {
  import opened Wrappers
  import opened BroadcastTasks
  import TalkLease

  datatype Message =
    | Notify(key: string, status: int)                                          // to the device
    | Upstream(key: string, result: DeviceResult, status: int)                  // device result, to the upstream
    | Reply(key: string, hash: string, status: int)                             // SIP answer to a broadcast MESSAGE

  // The SIP answer that follows an updateBroadcast call of the MESSAGE handler.
  datatype Promise = Promise(hash: string, done: int, failed: int)

  datatype Job =
    | Reserving(key: string, draft: Draft)
    | Notifying(key: string, hash: string)
    | UpdateDue(key: string, status: int, terminal: Option<MediaState>, reply: Option<Promise>)
    | Updating(key: string, status: int, terminal: Option<MediaState>, reply: Option<Promise>, seen: Option<Task>)
    | Recording(key: string, result: DeviceResult, seen: Option<Task>)
    | GrantDue(key: string, result: DeviceResult)
    | Granting(key: string, result: DeviceResult, at: int, seen: Option<Task>)
    | Delivering(key: string, result: DeviceResult)
    | FinishDue(key: string, result: DeviceResult)
    | Finishing(key: string, result: DeviceResult, seen: Option<Task>)
    | Activating(key: string, from: MediaState)
    | Pulled(key: string, pulled: Binding, localId: string)
    | Claiming(key: string, pulled: Binding, localId: string, audio: AudioTransaction, permitted: bool, seen: Option<Task>)

  // `grants` remembers the times of the successful result-delivery claims of each task.
  datatype System = System(db: Database, jobs: map<nat, Job>, wire: seq<Message>, grants: map<string, seq<int>>)

  datatype Event =
    | ReadReservation(id: nat, key: string, draft: Draft, authorised: bool)
    | CommitReservation(id: nat, leaseId: string, leaseUntil: int, receivedAt: int)
    | SendNotify(id: nat, before: bool, status: int, after: bool)
    | StartUpdate(id: nat, key: string, terminal: MediaState)
    | ReadUpdate(id: nat)
    | CommitUpdate(id: nat)
    | ReadRecord(id: nat, key: string, result: DeviceResult)
    | CommitRecord(id: nat)
    | ListPending(id: nat, key: string)
    | ReadGrant(id: nat, at: int)
    | CommitGrant(id: nat)
    | SendUpstream(id: nat, status: int)
    | ReadFinish(id: nat)
    | CommitFinish(id: nat)
    | ReadState(id: nat, key: string)
    | CommitState(id: nat)
    | Resolve(id: nat, key: string, localId: string)
    | ReadClaim(id: nat, audio: AudioTransaction, authorised: bool, now: int)
    | CommitAudio(id: nat)
    | LeaseCall(op: TalkLease.Op)
    | CreateForeign(key: string, kind: Kind, cseq: nat, channel: nat, state: MediaState, receivedAt: int)
    | Die(id: nat)

  function Init(): System {
    System(Database(map[], map[]), map[], [], map[])
  }

  // What one event does: a database transaction, the fate of one job, at most one message,
  // and possibly a new delivery grant.
  datatype Fate = Keep | Become(job: Job) | End

  datatype Effect = Effect(db: Database, id: nat, fate: Fate, say: Option<Message>, grant: Option<Granted>)

  datatype Granted = Granted(key: string, at: int)

  predicate Success(status: int) {
    200 <= status < 300
  }

  function Idle(s: System): Effect {
    Effect(s.db, 0, Keep, None, None)
  }

  function Become(s: System, id: nat, job: Job): Effect {
    Effect(s.db, id, Fate.Become(job), None, None)
  }

  function Grants(s: System, key: string): seq<int> {
    if key in s.grants then s.grants[key] else []
  }

  function Perform(s: System, f: Effect): System {
    System(
      f.db,
      match f.fate
      case Keep => s.jobs
      case Become(job) => s.jobs[f.id := job]
      case End => s.jobs - {f.id},
      if f.say.Some? then s.wire + [f.say.value] else s.wire,
      if f.grant.Some? then s.grants[f.grant.value.key := Grants(s, f.grant.value.key) + [f.grant.value.at]] else s.grants)
  }

  // The status answered to a copy of the MESSAGE that did not create the task,
  // cascade_broadcast.go:210-225.
  function AnswerStatus(r: Reservation): int {
    match r
    case Existing(b) => if b.notifyStatus == 0 then 491 else b.notifyStatus
    case Conflict => 409
    case Busy => 486
    case _ => 503
  }

  function DoReadReservation(s: System, id: nat, key: string, draft: Draft, authorised: bool): Effect {
    if id in s.jobs then Idle(s)
    else if key in s.db.tasks then
      Idle(s).(say := Some(Reply(key, draft.messageHash, AnswerStatus(AcceptExisting(s.db.tasks[key], draft)))))
    else if !authorised then Idle(s).(say := Some(Reply(key, draft.messageHash, AnswerStatus(Failure))))
    else Become(s, id, Reserving(key, draft))
  }

  function DoCommitReservation(s: System, id: nat, leaseId: string, leaseUntil: int, receivedAt: int): Effect {
    if id !in s.jobs || !s.jobs[id].Reserving? then Idle(s)
    else
      var Reserving(key, draft) := s.jobs[id];
      var r := Insert(s.db, key, draft, leaseId, leaseUntil, receivedAt);
      if r.Created? then Effect(r.db, id, Fate.Become(Notifying(key, draft.messageHash)), None, None)
      else Effect(s.db, id, End, Some(Reply(key, draft.messageHash, AnswerStatus(r))), None)
  }

  // cascade_broadcast.go:226-241: authorisation, the one device Notify, authorisation again.
  function DoSendNotify(s: System, id: nat, before: bool, status: int, after: bool): Effect {
    if id !in s.jobs || !s.jobs[id].Notifying? then Idle(s)
    else
      var Notifying(key, hash) := s.jobs[id];
      if !before then Become(s, id, UpdateDue(key, 403, Some(Aborted), Some(Promise(hash, 403, 403))))
      else
        var next :=
          if !Success(status) then UpdateDue(key, 502, Some(Failed), Some(Promise(hash, 502, 502)))
          else if !after then UpdateDue(key, 403, Some(Aborted), Some(Promise(hash, 403, 403)))
          else UpdateDue(key, 200, None, Some(Promise(hash, 200, 503)));
        Become(s, id, next).(say := Some(Notify(key, status)))
  }

  // Sweep, recovery and the end of an audio dialog all decide to end a task this way.
  function DoStartUpdate(s: System, id: nat, key: string, terminal: MediaState): Effect {
    if id in s.jobs || !terminal.Terminal() then Idle(s)
    else Become(s, id, UpdateDue(key, 0, Some(terminal), None))
  }

  function DoReadUpdate(s: System, id: nat): Effect {
    if id !in s.jobs || !s.jobs[id].UpdateDue? then Idle(s)
    else
      var UpdateDue(key, status, terminal, reply) := s.jobs[id];
      Become(s, id, Updating(key, status, terminal, reply, Find(s.db, key)))
  }

  function DoCommitUpdate(s: System, id: nat): Effect {
    if id !in s.jobs || !s.jobs[id].Updating? then Idle(s)
    else
      var Updating(key, status, terminal, reply, seen) := s.jobs[id];
      var r := Commit(s.db, key, PlanUpdate(seen, status, terminal));
      var say := if reply.None? then None
                 else Some(Reply(key, reply.value.hash, if r.1.Done? then reply.value.done else reply.value.failed));
      Effect(r.0, id, End, say, None)
  }

  function DoReadRecord(s: System, id: nat, key: string, result: DeviceResult): Effect {
    if id in s.jobs then Idle(s) else Become(s, id, Recording(key, result, Find(s.db, key)))
  }

  function DoCommitRecord(s: System, id: nat): Effect {
    if id !in s.jobs || !s.jobs[id].Recording? then Idle(s)
    else
      var Recording(key, result, seen) := s.jobs[id];
      var r := Commit(s.db, key, PlanRecord(seen, result));
      Effect(r.0, id, if r.1.Done? then Fate.Become(GrantDue(key, result)) else End, None, None)
  }

  // recover and sweep pick rows with a recorded, undelivered result.
  function DoListPending(s: System, id: nat, key: string): Effect {
    if id in s.jobs || key !in s.db.tasks then Idle(s)
    else
      var row := s.db.tasks[key];
      if row.kind.Broadcast? && !row.state.Terminal() && row.summary.Encoded?
         && !row.summary.binding.deviceResult.NoResult? && !row.summary.binding.resultDelivered
      then Become(s, id, GrantDue(key, row.summary.binding.deviceResult))
      else Idle(s)
  }

  function DoReadGrant(s: System, id: nat, at: int): Effect {
    if id !in s.jobs || !s.jobs[id].GrantDue? then Idle(s)
    else
      var GrantDue(key, result) := s.jobs[id];
      Become(s, id, Granting(key, result, at, Find(s.db, key)))
  }

  function DoCommitGrant(s: System, id: nat): Effect {
    if id !in s.jobs || !s.jobs[id].Granting? then Idle(s)
    else
      var Granting(key, result, at, seen) := s.jobs[id];
      var r := Commit(s.db, key, PlanGrant(seen, at));
      if r.1.Done? then Effect(r.0, id, Fate.Become(Delivering(key, result)), None, Some(Granted(key, at)))
      else Effect(r.0, id, End, None, None)
  }

  function DoSendUpstream(s: System, id: nat, status: int): Effect {
    if id !in s.jobs || !s.jobs[id].Delivering? then Idle(s)
    else
      var Delivering(key, result) := s.jobs[id];
      Effect(s.db, id, if Success(status) then Fate.Become(FinishDue(key, result)) else End,
             Some(Upstream(key, result, status)), None)
  }

  function DoReadFinish(s: System, id: nat): Effect {
    if id !in s.jobs || !s.jobs[id].FinishDue? then Idle(s)
    else
      var FinishDue(key, result) := s.jobs[id];
      Become(s, id, Finishing(key, result, Find(s.db, key)))
  }

  function DoCommitFinish(s: System, id: nat): Effect {
    if id !in s.jobs || !s.jobs[id].Finishing? then Idle(s)
    else
      var Finishing(key, result, seen) := s.jobs[id];
      Effect(Commit(s.db, key, PlanFinish(seen, result)).0, id, End, None, None)
  }

  // transitionBroadcastActive, cascade_broadcast_audio_runtime.go:295-313.
  function DoReadState(s: System, id: nat, key: string): Effect {
    if id in s.jobs || key !in s.db.tasks || !s.db.tasks[key].kind.Broadcast? then Idle(s)
    else Become(s, id, Activating(key, s.db.tasks[key].state))
  }

  function DoCommitState(s: System, id: nat): Effect {
    if id !in s.jobs || !s.jobs[id].Activating? then Idle(s)
    else
      var Activating(key, from) := s.jobs[id];
      match from
      case Provisioning =>
        var r := Transition(s.db, key, Provisioning, Answered);
        Effect(r.0, id, if r.1 then Fate.Become(Activating(key, Answered)) else End, None, None)
      case Answered => Effect(Transition(s.db, key, Answered, Active).0, id, End, None, None)
      case _ => Effect(s.db, id, End, None, None)
  }

  function DoResolve(s: System, id: nat, key: string, localId: string): Effect {
    if id in s.jobs || key !in s.db.tasks then Idle(s)
    else
      var row := s.db.tasks[key];
      if row.kind.Broadcast? && row.state.AcceptsAudio() && row.summary.Encoded?
      then Become(s, id, Pulled(key, Pull(row.summary.binding, localId), localId))
      else Idle(s)
  }

  function DoReadClaim(s: System, id: nat, audio: AudioTransaction, authorised: bool, now: int): Effect {
    if id !in s.jobs || !s.jobs[id].Pulled? then Idle(s)
    else
      var Pulled(key, pulled, localId) := s.jobs[id];
      var permitted := authorised && key in s.db.tasks && LeaseUsable(s.db, pulled, s.db.tasks[key].channel, now);
      Become(s, id, Claiming(key, pulled, localId, audio, permitted, Find(s.db, key)))
  }

  function DoCommitAudio(s: System, id: nat): Effect {
    if id !in s.jobs || !s.jobs[id].Claiming? then Idle(s)
    else
      var Claiming(key, pulled, _, audio, permitted, seen) := s.jobs[id];
      Effect(CommitClaim(s.db, key, PlanClaim(seen, pulled, audio, permitted)).0, id, End, None, None)
  }

  function DoLeaseCall(s: System, op: TalkLease.Op): Effect {
    if op.OpReserve? then Idle(s) else Idle(s).(db := s.db.(leases := TalkLease.Apply(s.db.leases, op)))
  }

  // Rows that this runtime did not write: video sessions, or a summary it cannot decode.
  function DoCreateForeign(s: System, key: string, kind: Kind, cseq: nat, channel: nat, state: MediaState, receivedAt: int): Effect {
    if key in s.db.tasks then Idle(s)
    else Idle(s).(db := s.db.(tasks := s.db.tasks[key := Task(kind, cseq, channel, state, Undecodable, receivedAt)]))
  }

  function EffectOf(s: System, e: Event): Effect {
    match e
    case ReadReservation(id, key, draft, authorised) => DoReadReservation(s, id, key, draft, authorised)
    case CommitReservation(id, leaseId, leaseUntil, receivedAt) => DoCommitReservation(s, id, leaseId, leaseUntil, receivedAt)
    case SendNotify(id, before, status, after) => DoSendNotify(s, id, before, status, after)
    case StartUpdate(id, key, terminal) => DoStartUpdate(s, id, key, terminal)
    case ReadUpdate(id) => DoReadUpdate(s, id)
    case CommitUpdate(id) => DoCommitUpdate(s, id)
    case ReadRecord(id, key, result) => DoReadRecord(s, id, key, result)
    case CommitRecord(id) => DoCommitRecord(s, id)
    case ListPending(id, key) => DoListPending(s, id, key)
    case ReadGrant(id, at) => DoReadGrant(s, id, at)
    case CommitGrant(id) => DoCommitGrant(s, id)
    case SendUpstream(id, status) => DoSendUpstream(s, id, status)
    case ReadFinish(id) => DoReadFinish(s, id)
    case CommitFinish(id) => DoCommitFinish(s, id)
    case ReadState(id, key) => DoReadState(s, id, key)
    case CommitState(id) => DoCommitState(s, id)
    case Resolve(id, key, localId) => DoResolve(s, id, key, localId)
    case ReadClaim(id, audio, authorised, now) => DoReadClaim(s, id, audio, authorised, now)
    case CommitAudio(id) => DoCommitAudio(s, id)
    case LeaseCall(op) => DoLeaseCall(s, op)
    case CreateForeign(key, kind, cseq, channel, state, receivedAt) => DoCreateForeign(s, key, kind, cseq, channel, state, receivedAt)
    case Die(id) => Effect(s.db, id, End, None, None)
  }

  function Step(s: System, e: Event): System {
    Perform(s, EffectOf(s, e))
  }

  function Run(s: System, events: seq<Event>): System
    decreases |events|
  {
    if events == [] then s else Run(Step(s, events[0]), events[1..])
  }

  // The events that write the database, each by the one function named after it.
  predicate Writes(e: Event) {
    e.CommitReservation? || e.CommitUpdate? || e.CommitRecord? || e.CommitGrant? || e.CommitFinish? || e.CommitState?
    || e.CommitAudio? || e.LeaseCall? || e.CreateForeign?
  }

  lemma OthersWriteNothing(s: System, e: Event)
    requires !Writes(e)
    ensures EffectOf(s, e).db == s.db && EffectOf(s, e).grant.None?
  {
  }

  lemma WriterOf(s: System, e: Event)
    ensures match e
            case CommitReservation(id, leaseId, leaseUntil, receivedAt) =>
              EffectOf(s, e) == DoCommitReservation(s, id, leaseId, leaseUntil, receivedAt)
            case CommitUpdate(id) => EffectOf(s, e) == DoCommitUpdate(s, id)
            case CommitRecord(id) => EffectOf(s, e) == DoCommitRecord(s, id)
            case CommitGrant(id) => EffectOf(s, e) == DoCommitGrant(s, id)
            case CommitFinish(id) => EffectOf(s, e) == DoCommitFinish(s, id)
            case CommitState(id) => EffectOf(s, e) == DoCommitState(s, id)
            case CommitAudio(id) => EffectOf(s, e) == DoCommitAudio(s, id)
            case LeaseCall(op) => EffectOf(s, e) == DoLeaseCall(s, op)
            case CreateForeign(key, kind, cseq, channel, state, receivedAt) =>
              EffectOf(s, e) == DoCreateForeign(s, key, kind, cseq, channel, state, receivedAt)
            case _ => true
  {
  }
}
