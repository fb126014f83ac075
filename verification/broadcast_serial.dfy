// The split read-then-UPDATE transactions refine a serial database: every run leaves the
// tables as if each successful transaction had been one indivisible operation, executed
// successfully at the moment of its commit.
module BroadcastSerial {
  import opened Wrappers
  import opened BroadcastTasks
  import opened BroadcastGrowth
  import opened BroadcastRuns
  import TalkLease

  // One indivisible operation, decided from the row as it is.
  datatype Op =
    | Reserve(key: string, draft: Draft, leaseId: string, leaseUntil: int, receivedAt: int)
    | Update(key: string, status: int, terminal: Option<MediaState>)
    | Record(key: string, result: DeviceResult)
    | Grant(key: string, at: int)
    | Finish(key: string, result: DeviceResult)
    | Move(key: string, from: MediaState, to: MediaState)
    | Claim(key: string, pulled: Binding, audio: AudioTransaction)
    | Lease(op: TalkLease.Op)
    | NewForeign(key: string, kind: Kind, cseq: nat, channel: nat, state: MediaState, receivedAt: int)

  function Apply(db: Database, op: Op): Database {
    match op
    case Reserve(key, draft, leaseId, leaseUntil, receivedAt) =>
      var r := Insert(db, key, draft, leaseId, leaseUntil, receivedAt);
      if r.Created? then r.db else db
    case Update(key, status, terminal) => Commit(db, key, PlanUpdate(Find(db, key), status, terminal)).0
    case Record(key, result) => Commit(db, key, PlanRecord(Find(db, key), result)).0
    case Grant(key, at) => Commit(db, key, PlanGrant(Find(db, key), at)).0
    case Finish(key, result) => Commit(db, key, PlanFinish(Find(db, key), result)).0
    case Move(key, from, to) => Transition(db, key, from, to).0
    case Claim(key, pulled, audio) => CommitClaim(db, key, PlanClaim(Find(db, key), pulled, audio, true)).0
    case Lease(op) => db.(leases := TalkLease.Apply(db.leases, op))
    case NewForeign(key, kind, cseq, channel, state, receivedAt) =>
      if key in db.tasks then db
      else db.(tasks := db.tasks[key := Task(kind, cseq, channel, state, Undecodable, receivedAt)])
  }

  // Whether the operation, decided from the row as it is, reports success.
  predicate Succeeds(db: Database, op: Op) {
    match op
    case Reserve(key, draft, leaseId, leaseUntil, receivedAt) => Insert(db, key, draft, leaseId, leaseUntil, receivedAt).Created?
    case Update(key, status, terminal) => Commit(db, key, PlanUpdate(Find(db, key), status, terminal)).1.Done?
    case Record(key, result) => Commit(db, key, PlanRecord(Find(db, key), result)).1.Done?
    case Grant(key, at) => Commit(db, key, PlanGrant(Find(db, key), at)).1.Done?
    case Finish(key, result) => Commit(db, key, PlanFinish(Find(db, key), result)).1.Done?
    case Move(key, from, to) => Transition(db, key, from, to).1
    case Claim(key, pulled, audio) => CommitClaim(db, key, PlanClaim(Find(db, key), pulled, audio, true)).1.Done?
    case Lease(op) => !op.OpReserve?
    case NewForeign(key, _, _, _, _, _) => key !in db.tasks
  }

  function Serial(db: Database, ops: seq<Op>): Database
    decreases |ops|
  {
    if ops == [] then db else Serial(Apply(db, ops[0]), ops[1..])
  }

  // Executed one after the other, every operation succeeds.
  predicate AllSucceed(db: Database, ops: seq<Op>)
    decreases |ops|
  {
    ops == [] || (Succeeds(db, ops[0]) && AllSucceed(Apply(db, ops[0]), ops[1..]))
  }

  // ---- the log: what the commits of a run reported as done, in commit order ----

  function Once(done: bool, op: Op): seq<Op> {
    if done then [op] else []
  }

  // The operation of an event whose transaction reported success to its caller.
  function Committed(s: System, e: Event): seq<Op> {
    match e
    case CommitReservation(id, leaseId, leaseUntil, receivedAt) =>
      if id !in s.jobs || !s.jobs[id].Reserving? then []
      else
        var Reserving(key, draft) := s.jobs[id];
        Once(Insert(s.db, key, draft, leaseId, leaseUntil, receivedAt).Created?, Reserve(key, draft, leaseId, leaseUntil, receivedAt))
    case CommitUpdate(id) =>
      if id !in s.jobs || !s.jobs[id].Updating? then []
      else
        var Updating(key, status, terminal, _, seen) := s.jobs[id];
        Once(Commit(s.db, key, PlanUpdate(seen, status, terminal)).1.Done?, Update(key, status, terminal))
    case CommitRecord(id) =>
      if id !in s.jobs || !s.jobs[id].Recording? then []
      else
        var Recording(key, result, seen) := s.jobs[id];
        Once(Commit(s.db, key, PlanRecord(seen, result)).1.Done?, Record(key, result))
    case CommitGrant(id) =>
      if id !in s.jobs || !s.jobs[id].Granting? then []
      else
        var Granting(key, _, at, seen) := s.jobs[id];
        Once(Commit(s.db, key, PlanGrant(seen, at)).1.Done?, Grant(key, at))
    case CommitFinish(id) =>
      if id !in s.jobs || !s.jobs[id].Finishing? then []
      else
        var Finishing(key, result, seen) := s.jobs[id];
        Once(Commit(s.db, key, PlanFinish(seen, result)).1.Done?, Finish(key, result))
    case CommitState(id) =>
      if id !in s.jobs || !s.jobs[id].Activating? then []
      else
        var Activating(key, from) := s.jobs[id];
        var to := if from.Provisioning? then Answered else MediaState.Active;
        Once((from.Provisioning? || from.Answered?) && Transition(s.db, key, from, to).1, Move(key, from, to))
    case CommitAudio(id) =>
      if id !in s.jobs || !s.jobs[id].Claiming? then []
      else
        var Claiming(key, pulled, _, audio, permitted, seen) := s.jobs[id];
        Once(CommitClaim(s.db, key, PlanClaim(seen, pulled, audio, permitted)).1.Done?, Claim(key, pulled, audio))
    case LeaseCall(op) => Once(!op.OpReserve?, Lease(op))
    case CreateForeign(key, kind, cseq, channel, state, receivedAt) =>
      Once(key !in s.db.tasks, NewForeign(key, kind, cseq, channel, state, receivedAt))
    case _ => []
  }

  function Log(s: System, events: seq<Event>): seq<Op>
    decreases |events|
  {
    if events == [] then [] else Committed(s, events[0]) + Log(Step(s, events[0]), events[1..])
  }

  function Seen(job: Job): Option<Task> {
    match job
    case Updating(_, _, _, _, seen) => seen
    case Recording(_, _, seen) => seen
    case Granting(_, _, _, seen) => seen
    case Finishing(_, _, seen) => seen
    case Claiming(_, _, _, _, _, seen) => seen
    case _ => None
  }

  // A row that a job has read still exists and is of the same kind.
  ghost predicate SeenExists(db: Database, job: Job) {
    Seen(job).Some? ==> job.key in db.tasks && db.tasks[job.key].kind == Seen(job).value.kind
  }

  ghost predicate AllSeenExist(s: System) {
    forall id :: id in s.jobs ==> SeenExists(s.db, s.jobs[id])
  }

  lemma SeenSource(s: System, e: Event)
    requires EffectOf(s, e).fate.Become?
    ensures Seen(EffectOf(s, e).fate.job).Some? ==> SeenExists(s.db, EffectOf(s, e).fate.job)
  {
  }

  lemma StepKeepsSeen(s: System, e: Event)
    requires AllSeenExist(s) && DatabaseGrew(s.db, Step(s, e).db)
    ensures AllSeenExist(Step(s, e))
  {
    if EffectOf(s, e).fate.Become? {
      SeenSource(s, e);
    }
    var s' := Step(s, e);
    forall id | id in s'.jobs && Seen(s'.jobs[id]).Some?
      ensures SeenExists(s'.db, s'.jobs[id])
    {
      assert SeenExists(s.db, s'.jobs[id]);
      assert TaskGrew(s.db.tasks[s'.jobs[id].key], s'.db.tasks[s'.jobs[id].key]);
      hide EffectOf;
    }
  }

  // ---- a plan made from a stale row either does nothing, or does what a fresh plan does ----

  ghost predicate Fresh(db: Database, stale: (Database, Outcome), now: (Database, Outcome)) {
    if stale.1.Done? then stale == now else stale.0 == db
  }

  lemma UpdateIsSerial(db: Database, key: string, seen: Option<Task>, status: int, terminal: Option<MediaState>)
    requires seen.Some? ==> key in db.tasks && db.tasks[key].kind == seen.value.kind
    ensures Fresh(db, Commit(db, key, PlanUpdate(seen, status, terminal)), Commit(db, key, PlanUpdate(Find(db, key), status, terminal)))
  {
  }

  lemma RecordIsSerial(db: Database, key: string, seen: Option<Task>, result: DeviceResult)
    requires seen.Some? ==> key in db.tasks && db.tasks[key].kind == seen.value.kind
    ensures Fresh(db, Commit(db, key, PlanRecord(seen, result)), Commit(db, key, PlanRecord(Find(db, key), result)))
  {
  }

  lemma GrantIsSerial(db: Database, key: string, seen: Option<Task>, at: int)
    requires seen.Some? ==> key in db.tasks && db.tasks[key].kind == seen.value.kind
    ensures Fresh(db, Commit(db, key, PlanGrant(seen, at)), Commit(db, key, PlanGrant(Find(db, key), at)))
  {
    hide RetryDelay;
  }

  lemma FinishIsSerial(db: Database, key: string, seen: Option<Task>, result: DeviceResult)
    requires seen.Some? ==> key in db.tasks && db.tasks[key].kind == seen.value.kind
    ensures Fresh(db, Commit(db, key, PlanFinish(seen, result)), Commit(db, key, PlanFinish(Find(db, key), result)))
  {
  }

  lemma ClaimIsSerial(db: Database, key: string, seen: Option<Task>, pulled: Binding, audio: AudioTransaction, permitted: bool)
    ensures Fresh(db, CommitClaim(db, key, PlanClaim(seen, pulled, audio, permitted)),
                  CommitClaim(db, key, PlanClaim(Find(db, key), pulled, audio, true)))
  {
  }

  lemma MoveIsSerial(db: Database, key: string, from: MediaState, to: MediaState)
    ensures !Transition(db, key, from, to).1 ==> Transition(db, key, from, to).0 == db
  {
  }

  // The event's database is that of its logged operation, which succeeds there.
  ghost predicate Logged(s: System, e: Event, db: Database) {
    var ops := Committed(s, e);
    if ops == [] then db == s.db else |ops| == 1 && Succeeds(s.db, ops[0]) && db == Apply(s.db, ops[0])
  }

  lemma UpdateIsLogged(s: System, id: nat)
    requires AllSeenExist(s)
    ensures Logged(s, CommitUpdate(id), DoCommitUpdate(s, id).db)
  {
    hide Commit, CommitClaim, Transition, PlanUpdate, PlanRecord, PlanGrant, PlanFinish, PlanClaim;
    if id in s.jobs && s.jobs[id].Updating? {
      assert SeenExists(s.db, s.jobs[id]);
      var Updating(key, status, terminal, _, seen) := s.jobs[id];
      UpdateIsSerial(s.db, key, seen, status, terminal);
    }
  }

  lemma RecordIsLogged(s: System, id: nat)
    requires AllSeenExist(s)
    ensures Logged(s, CommitRecord(id), DoCommitRecord(s, id).db)
  {
    hide Commit, CommitClaim, Transition, PlanUpdate, PlanRecord, PlanGrant, PlanFinish, PlanClaim;
    if id in s.jobs && s.jobs[id].Recording? {
      assert SeenExists(s.db, s.jobs[id]);
      var Recording(key, result, seen) := s.jobs[id];
      RecordIsSerial(s.db, key, seen, result);
    }
  }

  lemma GrantIsLogged(s: System, id: nat)
    requires AllSeenExist(s)
    ensures Logged(s, CommitGrant(id), DoCommitGrant(s, id).db)
  {
    hide Commit, CommitClaim, Transition, PlanUpdate, PlanRecord, PlanGrant, PlanFinish, PlanClaim;
    if id in s.jobs && s.jobs[id].Granting? {
      assert SeenExists(s.db, s.jobs[id]);
      var Granting(key, _, at, seen) := s.jobs[id];
      GrantIsSerial(s.db, key, seen, at);
    }
  }

  lemma FinishIsLogged(s: System, id: nat)
    requires AllSeenExist(s)
    ensures Logged(s, CommitFinish(id), DoCommitFinish(s, id).db)
  {
    hide Commit, CommitClaim, Transition, PlanUpdate, PlanRecord, PlanGrant, PlanFinish, PlanClaim;
    if id in s.jobs && s.jobs[id].Finishing? {
      assert SeenExists(s.db, s.jobs[id]);
      var Finishing(key, result, seen) := s.jobs[id];
      FinishIsSerial(s.db, key, seen, result);
    }
  }

  lemma ClaimIsLogged(s: System, id: nat)
    requires AllSeenExist(s)
    ensures Logged(s, CommitAudio(id), DoCommitAudio(s, id).db)
  {
    hide Commit, CommitClaim, Transition, PlanUpdate, PlanRecord, PlanGrant, PlanFinish, PlanClaim;
    if id in s.jobs && s.jobs[id].Claiming? {
      assert SeenExists(s.db, s.jobs[id]);
      var Claiming(key, pulled, _, audio, permitted, seen) := s.jobs[id];
      ClaimIsSerial(s.db, key, seen, pulled, audio, permitted);
    }
  }

  lemma MoveIsLogged(s: System, id: nat)
    requires AllSeenExist(s)
    ensures Logged(s, CommitState(id), DoCommitState(s, id).db)
  {
    hide Commit, CommitClaim, Transition, PlanUpdate, PlanRecord, PlanGrant, PlanFinish, PlanClaim;
    if id in s.jobs && s.jobs[id].Activating? {
      assert SeenExists(s.db, s.jobs[id]);
      var Activating(key, _) := s.jobs[id];
      MoveIsSerial(s.db, key, Provisioning, Answered);
      MoveIsSerial(s.db, key, Answered, MediaState.Active);
    }
  }

  lemma OthersAreLogged(s: System, e: Event)
    requires e.CommitReservation? || e.LeaseCall? || e.CreateForeign?
    ensures Logged(s, e, EffectOf(s, e).db)
  {
    hide Insert, TalkLease.Apply;
  }

  lemma StepIsLogged(s: System, e: Event)
    requires AllSeenExist(s)
    ensures Logged(s, e, Step(s, e).db)
  {
    WriterOf(s, e);
    if !Writes(e) {
      OthersWriteNothing(s, e);
    }
    if e.CommitReservation? || e.LeaseCall? || e.CreateForeign? {
      OthersAreLogged(s, e);
    }
    hide EffectOf, DoCommitReservation, DoLeaseCall, DoCreateForeign;
    hide Logged, DoCommitUpdate, DoCommitRecord, DoCommitGrant, DoCommitFinish, DoCommitAudio, DoCommitState;
    match e
    case CommitUpdate(id) => UpdateIsLogged(s, id);
    case CommitRecord(id) => RecordIsLogged(s, id);
    case CommitGrant(id) => GrantIsLogged(s, id);
    case CommitFinish(id) => FinishIsLogged(s, id);
    case CommitAudio(id) => ClaimIsLogged(s, id);
    case CommitState(id) => MoveIsLogged(s, id);
    case _ =>
      UnwrittenIsLogged(s, e, Step(s, e).db);
  }

  lemma UnwrittenIsLogged(s: System, e: Event, db: Database)
    ensures !Writes(e) && db == s.db ==> Logged(s, e, db)
  {
  }
}
