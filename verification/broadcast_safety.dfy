// The invariants of BroadcastRuns about rows, leases, the device Notify and the answers to
// the upstream. The "source" lemmas say where a new job, value or message can come from.
module BroadcastSafety {
  import opened Wrappers
  import opened BroadcastTasks
  import opened BroadcastGrowth
  import opened BroadcastRuns
  import TalkLease

  // ---- rows and leases ----

  // An update that ends a task ends it in a terminal state.
  predicate EndsTerminal(job: Job) {
    match job
    case UpdateDue(_, _, Some(end), _) => end.Terminal()
    case Updating(_, _, Some(end), _, _) => end.Terminal()
    case _ => true
  }

  ghost predicate AllEndTerminal(s: System) {
    forall id :: id in s.jobs ==> EndsTerminal(s.jobs[id])
  }

  // The conditional writes of a row.
  lemma RowWritesSound(s: System, e: Event)
    requires DatabaseInv(s.db) && AllEndTerminal(s)
    requires e.CommitUpdate? || e.CommitRecord? || e.CommitGrant? || e.CommitFinish?
    ensures Sound(s.db, EffectOf(s, e).db)
  {
    hide DatabaseInv, Sound, Commit, PlanUpdate, PlanRecord, PlanGrant, PlanFinish;
    SoundReflexive(s.db);
    WriterOf(s, e);
    hide EffectOf;
    if e.id in s.jobs {
      match s.jobs[e.id]
      case Updating(key, status, terminal, _, seen) => UpdateSound(s.db, key, seen, status, terminal);
      case Recording(key, result, seen) => RecordSound(s.db, key, seen, result);
      case Granting(key, _, at, seen) => GrantSound(s.db, key, seen, at);
      case Finishing(key, result, seen) => FinishSound(s.db, key, seen, result);
      case _ =>
    }
  }

  lemma StateWritesSound(s: System, e: Event)
    requires DatabaseInv(s.db)
    requires e.CommitReservation? || e.CommitState? || e.CommitAudio? || e.LeaseCall? || e.CreateForeign?
    ensures Sound(s.db, EffectOf(s, e).db)
  {
    hide DatabaseInv, Sound, CommitClaim, Transition, Insert, PlanClaim;
    SoundReflexive(s.db);
    WriterOf(s, e);
    hide EffectOf;
    match e
    case CommitReservation(id, leaseId, leaseUntil, receivedAt) =>
      if id in s.jobs && s.jobs[id].Reserving? {
        InsertSound(s.db, s.jobs[id].key, s.jobs[id].draft, leaseId, leaseUntil, receivedAt);
      }
    case CommitState(id) =>
      if id in s.jobs && s.jobs[id].Activating? {
        TransitionSound(s.db, s.jobs[id].key, Provisioning, Answered);
        TransitionSound(s.db, s.jobs[id].key, Answered, MediaState.Active);
      }
    case CommitAudio(id) =>
      if id in s.jobs && s.jobs[id].Claiming? {
        var Claiming(key, pulled, localId, audio, permitted, seen) := s.jobs[id];
        ClaimSound(s.db, key, seen, pulled, audio, permitted);
      }
    case LeaseCall(op) => LeaseCallSound(s.db, op);
    case CreateForeign(key, kind, cseq, channel, state, receivedAt) =>
      if key !in s.db.tasks {
        ForeignSound(s.db, key, Task(kind, cseq, channel, state, Undecodable, receivedAt));
      }
  }

  lemma StepKeepsDatabase(s: System, e: Event)
    requires DatabaseInv(s.db) && AllEndTerminal(s)
    ensures Sound(s.db, Step(s, e).db)
  {
    hide DatabaseInv, Sound, EffectOf, AllEndTerminal;
    if !Writes(e) {
      OthersWriteNothing(s, e);
      SoundReflexive(s.db);
    } else if e.CommitUpdate? || e.CommitRecord? || e.CommitGrant? || e.CommitFinish? {
      RowWritesSound(s, e);
    } else {
      StateWritesSound(s, e);
    }
  }

  lemma EndSource(s: System, e: Event)
    requires AllEndTerminal(s) && EffectOf(s, e).fate.Become?
    ensures EndsTerminal(EffectOf(s, e).fate.job)
  {
  }

  lemma StepKeepsEnds(s: System, e: Event)
    requires AllEndTerminal(s)
    ensures AllEndTerminal(Step(s, e))
  {
    if EffectOf(s, e).fate.Become? {
      EndSource(s, e);
    }
    hide EffectOf;
  }

  // ---- the device is notified at most once ----

  function NotifyCount(wire: seq<Message>, key: string): nat {
    if wire == [] then 0
    else NotifyCount(wire[..|wire| - 1], key) + (if wire[|wire| - 1].Notify? && wire[|wire| - 1].key == key then 1 else 0)
  }

  lemma CountAppend(wire: seq<Message>, m: Message, key: string)
    ensures NotifyCount(wire + [m], key) == NotifyCount(wire, key) + (if m.Notify? && m.key == key then 1 else 0)
  {
    assert (wire + [m])[..|wire|] == wire;
  }

  // A goroutine that holds a fresh reservation is the only one for its key, and no Notify
  // was sent for that key yet.
  ghost predicate NotifyOnce(s: System) {
    && (forall key :: NotifyCount(s.wire, key) <= if key in s.db.tasks then 1 else 0)
    && (forall id :: id in s.jobs && s.jobs[id].Notifying? ==>
          s.jobs[id].key in s.db.tasks && NotifyCount(s.wire, s.jobs[id].key) == 0)
    && (forall a, b :: a in s.jobs && b in s.jobs && s.jobs[a].Notifying? && s.jobs[b].Notifying? ==>
          (s.jobs[a].key == s.jobs[b].key ==> a == b))
  }

  // Only the winner of the unique key may notify, and notifying ends that right.
  lemma NotifySource(s: System, e: Event)
    ensures var f := EffectOf(s, e);
            && (f.fate.Become? && f.fate.job.Notifying? ==>
                  f.fate.job.key !in s.db.tasks && f.fate.job.key in f.db.tasks && f.say.None?)
            && (f.say.Some? && f.say.value.Notify? ==>
                  && f.id in s.jobs && s.jobs[f.id].Notifying? && s.jobs[f.id].key == f.say.value.key
                  && f.fate.Become? && !f.fate.job.Notifying?)
  {
  }

  lemma StepKeepsNotifyOnce(s: System, e: Event)
    requires NotifyOnce(s) && s.db.tasks.Keys <= Step(s, e).db.tasks.Keys
    ensures NotifyOnce(Step(s, e))
  {
    NotifySource(s, e);
    hide EffectOf, NotifyCount;
    var f := EffectOf(s, e);
    if f.say.Some? {
      forall key
        ensures NotifyCount(s.wire + [f.say.value], key) ==
                  NotifyCount(s.wire, key) + (if f.say.value.Notify? && f.say.value.key == key then 1 else 0)
      {
        CountAppend(s.wire, f.say.value, key);
      }
    }
  }

  // ---- what the row and the upstream are told about the Notify is true ----

  ghost predicate Told(wire: seq<Message>, key: string) {
    exists m :: m in wire && m.Notify? && m.key == key && Success(m.status)
  }

  lemma ToldKept(wire: seq<Message>, wire': seq<Message>, key: string)
    requires wire <= wire' && Told(wire, key)
    ensures Told(wire', key)
  {
    var m :| m in wire && m.Notify? && m.key == key && Success(m.status);
    assert m in wire';
  }

  predicate WritesStatus(job: Job, status: int) {
    (job.UpdateDue? || job.Updating?) && job.status == status
  }

  function StatusOf(db: Database, key: string): int {
    if key in db.tasks && db.tasks[key].summary.Encoded? then db.tasks[key].summary.binding.notifyStatus else 0
  }

  ghost predicate NotifyTruth(s: System) {
    && (forall id :: id in s.jobs && WritesStatus(s.jobs[id], 200) ==> Told(s.wire, s.jobs[id].key))
    && (forall key :: StatusOf(s.db, key) == 200 ==> Told(s.wire, key))
  }

  lemma CommitKeepsStatus(db: Database, key: string, plan: Plan, k: string)
    requires plan.Write? ==>
               && plan.seen.summary.Encoded? && plan.next.summary.Encoded?
               && plan.next.summary.binding.notifyStatus == plan.seen.summary.binding.notifyStatus
    ensures StatusOf(Commit(db, key, plan).0, k) == StatusOf(db, k)
  {
  }

  // No writer but the Notify completion touches the Notify status.
  lemma PlansKeepStatus(db: Database, key: string, seen: Option<Task>, result: DeviceResult, at: int, k: string)
    ensures forall plan :: plan in {PlanRecord(seen, result), PlanGrant(seen, at), PlanFinish(seen, result)} ==>
              StatusOf(Commit(db, key, plan).0, k) == StatusOf(db, k)
  {
    hide Commit, RetryDelay;
    CommitKeepsStatus(db, key, PlanRecord(seen, result), k);
    CommitKeepsStatus(db, key, PlanGrant(seen, at), k);
    CommitKeepsStatus(db, key, PlanFinish(seen, result), k);
  }

  lemma ClaimKeepsStatus(db: Database, key: string, seen: Option<Task>, pulled: Binding, audio: AudioTransaction, permitted: bool, k: string)
    ensures StatusOf(CommitClaim(db, key, PlanClaim(seen, pulled, audio, permitted)).0, k) == StatusOf(db, k)
  {
  }

  lemma UpdateWritesStatus(db: Database, key: string, seen: Option<Task>, status: int, terminal: Option<MediaState>, k: string)
    ensures var t := Commit(db, key, PlanUpdate(seen, status, terminal)).0;
            StatusOf(t, k) == StatusOf(db, k) || (k == key && StatusOf(t, k) == status)
  {
  }

  lemma StatusSource(s: System, e: Event, key: string)
    ensures var f := EffectOf(s, e);
            || StatusOf(f.db, key) == StatusOf(s.db, key)
            || (f.id in s.jobs && s.jobs[f.id].key == key && WritesStatus(s.jobs[f.id], StatusOf(f.db, key)))
  {
    hide Commit, CommitClaim, PlanUpdate, PlanRecord, PlanGrant, PlanFinish, PlanClaim;
    WriterOf(s, e);
    if !Writes(e) {
      OthersWriteNothing(s, e);
    }
    hide EffectOf;
    match e
    case CommitUpdate(id) =>
      if id in s.jobs && s.jobs[id].Updating? {
        UpdateWritesStatus(s.db, s.jobs[id].key, s.jobs[id].seen, s.jobs[id].status, s.jobs[id].terminal, key);
      }
    case CommitRecord(id) =>
      if id in s.jobs && s.jobs[id].Recording? {
        PlansKeepStatus(s.db, s.jobs[id].key, s.jobs[id].seen, s.jobs[id].result, 0, key);
      }
    case CommitGrant(id) =>
      if id in s.jobs && s.jobs[id].Granting? {
        PlansKeepStatus(s.db, s.jobs[id].key, s.jobs[id].seen, NoResult, s.jobs[id].at, key);
      }
    case CommitFinish(id) =>
      if id in s.jobs && s.jobs[id].Finishing? {
        PlansKeepStatus(s.db, s.jobs[id].key, s.jobs[id].seen, s.jobs[id].result, 0, key);
      }
    case CommitAudio(id) =>
      if id in s.jobs && s.jobs[id].Claiming? {
        var Claiming(k, pulled, _, audio, permitted, seen) := s.jobs[id];
        ClaimKeepsStatus(s.db, k, seen, pulled, audio, permitted, key);
      }
    case _ =>
  }

  lemma StatusJobSource(s: System, e: Event)
    requires EffectOf(s, e).fate.Become? && WritesStatus(EffectOf(s, e).fate.job, 200)
    ensures var f := EffectOf(s, e);
            || (f.id in s.jobs && WritesStatus(s.jobs[f.id], 200) && s.jobs[f.id].key == f.fate.job.key)
            || (f.say.Some? && f.say.value.Notify? && f.say.value.key == f.fate.job.key && Success(f.say.value.status))
  {
  }

  lemma StepKeepsNotifyTruth(s: System, e: Event)
    requires NotifyTruth(s)
    ensures NotifyTruth(Step(s, e))
  {
    hide EffectOf, StatusOf, WritesStatus;
    var s', f := Step(s, e), EffectOf(s, e);
    forall key | StatusOf(s'.db, key) == 200
      ensures Told(s'.wire, key)
    {
      StatusSource(s, e, key);
      ToldKept(s.wire, s'.wire, key);
    }
    forall id | id in s'.jobs && WritesStatus(s'.jobs[id], 200)
      ensures Told(s'.wire, s'.jobs[id].key)
    {
      if f.fate.Become? && f.id == id {
        StatusJobSource(s, e);
        if f.say.Some? {
          assert s'.wire[|s.wire|] in s'.wire;
        }
      }
      if Told(s.wire, s'.jobs[id].key) {
        ToldKept(s.wire, s'.wire, s'.jobs[id].key);
      }
    }
  }

  // ---- answers to copies of one MESSAGE ----

  function HashOf(db: Database, key: string): Option<string> {
    if key in db.tasks && db.tasks[key].kind.Broadcast? && db.tasks[key].summary.Encoded?
    then Some(db.tasks[key].summary.binding.messageHash) else None
  }

  function HashHeld(job: Job): Option<string> {
    match job
    case Notifying(_, hash) => Some(hash)
    case UpdateDue(_, _, _, Some(p)) => Some(p.hash)
    case Updating(_, _, _, Some(p), _) => Some(p.hash)
    case _ => None
  }

  predicate PromisesTruth(job: Job) {
    (job.UpdateDue? || job.Updating?) && job.reply.Some? ==>
      job.reply.value.failed != 200 && (job.reply.value.done == 200 ==> job.status == 200)
  }

  ghost predicate HoldsTruth(db: Database, job: Job) {
    PromisesTruth(job) && (HashHeld(job).Some? ==> HashOf(db, job.key) == HashHeld(job))
  }

  // A copy with another content hash is refused, and 200 means that the device accepted
  // the Notify of a copy with this very hash.
  ghost predicate AnswerSound(s: System, m: Message) {
    m.Reply? ==>
      && (HashOf(s.db, m.key) == Some(m.hash) || m.status in {409, 486, 503})
      && (m.status == 200 ==> Told(s.wire, m.key))
  }

  ghost predicate Answers(s: System) {
    && (forall id :: id in s.jobs ==> HoldsTruth(s.db, s.jobs[id]))
    && (forall m :: m in s.wire ==> AnswerSound(s, m))
  }

  lemma HashKept(a: Database, b: Database, key: string)
    requires DatabaseGrew(a, b) && HashOf(a, key).Some?
    ensures HashOf(b, key) == HashOf(a, key)
  {
    assert TaskGrew(a.tasks[key], b.tasks[key]);
    assert Stable(a.tasks[key].summary.binding).messageHash == a.tasks[key].summary.binding.messageHash;
  }

  lemma HoldSource(s: System, e: Event)
    requires EffectOf(s, e).fate.Become?
    requires EffectOf(s, e).id in s.jobs ==> HoldsTruth(s.db, s.jobs[EffectOf(s, e).id])
    ensures HoldsTruth(s.db, EffectOf(s, e).fate.job) || HoldsTruth(EffectOf(s, e).db, EffectOf(s, e).fate.job)
  {
  }

  // A new answer repeats the row's stored status, keeps a promise, or refuses.
  lemma ReplySource(s: System, e: Event)
    requires EffectOf(s, e).say.Some? && EffectOf(s, e).say.value.Reply?
    requires EffectOf(s, e).id in s.jobs ==> HoldsTruth(s.db, s.jobs[EffectOf(s, e).id])
    ensures var f := EffectOf(s, e); var m := f.say.value;
            && (HashOf(s.db, m.key) == Some(m.hash) || m.status in {409, 486, 503})
            && (m.status == 200 ==>
                  (StatusOf(s.db, m.key) == 200 || (f.id in s.jobs && WritesStatus(s.jobs[f.id], 200) && s.jobs[f.id].key == m.key)))
  {
  }

  lemma StepKeepsHolds(s: System, e: Event, id: nat)
    requires Answers(s) && DatabaseGrew(s.db, Step(s, e).db) && id in Step(s, e).jobs
    ensures HoldsTruth(Step(s, e).db, Step(s, e).jobs[id])
  {
    hide EffectOf, DatabaseGrew, AnswerSound, HashOf, HashHeld, PromisesTruth;
    var s', f := Step(s, e), EffectOf(s, e);
    if f.fate.Become? && f.id == id {
      HoldSource(s, e);
    }
    var job := s'.jobs[id];
    if HoldsTruth(s.db, job) && HashHeld(job).Some? {
      HashKept(s.db, s'.db, job.key);
    }
  }

  lemma StepKeepsAnswers(s: System, e: Event)
    requires NotifyTruth(s) && Answers(s) && DatabaseGrew(s.db, Step(s, e).db)
    ensures Answers(Step(s, e))
  {
    hide EffectOf, DatabaseGrew, HashOf, StatusOf, HoldsTruth, WritesStatus;
    var s', f := Step(s, e), EffectOf(s, e);
    forall id | id in s'.jobs {
      StepKeepsHolds(s, e, id);
    }
    forall m | m in s'.wire && m.Reply?
      ensures AnswerSound(s', m)
    {
      if m in s.wire {
        assert AnswerSound(s, m);
      } else {
        ReplySource(s, e);
      }
      if HashOf(s.db, m.key).Some? {
        HashKept(s.db, s'.db, m.key);
      }
      if m.status == 200 {
        ToldKept(s.wire, s'.wire, m.key);
      }
    }
  }
}
