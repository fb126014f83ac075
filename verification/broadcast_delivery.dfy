// Delivering the device result upstream: grants are spaced by the retry clock, every send
// uses one grant, and a delivered result was accepted by the upstream.
module BroadcastDelivery {
  import opened Wrappers
  import opened BroadcastTasks
  import TalkLease
  import opened BroadcastGrowth
  import opened BroadcastRuns

  function ResultOf(db: Database, key: string): DeviceResult {
    if key in db.tasks && db.tasks[key].summary.Encoded? then db.tasks[key].summary.binding.deviceResult else NoResult
  }

  predicate Delivered(db: Database, key: string) {
    key in db.tasks && db.tasks[key].summary.Encoded? && db.tasks[key].summary.binding.resultDelivered
  }

  function Attempts(db: Database, key: string): nat {
    if key in db.tasks && db.tasks[key].summary.Encoded? then db.tasks[key].summary.binding.resultAttempts else 0
  }

  function AttemptAt(db: Database, key: string): Option<int> {
    if key in db.tasks && db.tasks[key].summary.Encoded? then db.tasks[key].summary.binding.resultAttemptAt else None
  }

  // ---- the retry clock ----

  ghost predicate Spaced(times: seq<int>) {
    forall i :: 0 < i < |times| ==> times[i - 1] + RetryDelay(i) <= times[i]
  }

  // The row's attempt counter and attempt time are the length and the end of the grant history.
  ghost predicate ClockOf(s: System, key: string) {
    && |Grants(s, key)| == Attempts(s.db, key)
    && AttemptAt(s.db, key) == (if Grants(s, key) == [] then None else Some(Grants(s, key)[|Grants(s, key)| - 1]))
    && Spaced(Grants(s, key))
  }

  ghost predicate ClockInv(s: System) {
    forall key :: ClockOf(s, key)
  }

  lemma CommitKeepsClock(db: Database, key: string, plan: Plan, k: string)
    requires plan.Write? ==>
               && plan.seen.summary.Encoded? && plan.next.summary.Encoded?
               && plan.next.summary.binding.resultAttempts == plan.seen.summary.binding.resultAttempts
               && plan.next.summary.binding.resultAttemptAt == plan.seen.summary.binding.resultAttemptAt
    ensures Attempts(Commit(db, key, plan).0, k) == Attempts(db, k)
    ensures AttemptAt(Commit(db, key, plan).0, k) == AttemptAt(db, k)
  {
  }

  // Only a successful claim moves the clock, and only after the delay of the last grant.
  lemma GrantSource(s: System, e: Event, key: string)
    requires EffectOf(s, e).grant.Some?
    ensures var f := EffectOf(s, e); var at := f.grant.value.at;
            && f.id in s.jobs && s.jobs[f.id].Granting? && f.fate == Fate.Become(Delivering(f.grant.value.key, s.jobs[f.id].result))
            && (key == f.grant.value.key ==>
                  && Attempts(f.db, key) == Attempts(s.db, key) + 1 && AttemptAt(f.db, key) == Some(at)
                  && (AttemptAt(s.db, key).Some? ==> AttemptAt(s.db, key).value + RetryDelay(Attempts(s.db, key)) <= at))
            && (key != f.grant.value.key ==> Attempts(f.db, key) == Attempts(s.db, key) && AttemptAt(f.db, key) == AttemptAt(s.db, key))
  {
    hide RetryDelay;
  }

  // No writer but the delivery claim touches the clock.
  lemma PlansKeepClock(db: Database, key: string, seen: Option<Task>, status: int, terminal: Option<MediaState>, result: DeviceResult, k: string)
    ensures forall plan :: plan in {PlanUpdate(seen, status, terminal), PlanRecord(seen, result), PlanFinish(seen, result)} ==>
              Attempts(Commit(db, key, plan).0, k) == Attempts(db, k) && AttemptAt(Commit(db, key, plan).0, k) == AttemptAt(db, k)
  {
    hide Commit;
    CommitKeepsClock(db, key, PlanUpdate(seen, status, terminal), k);
    CommitKeepsClock(db, key, PlanRecord(seen, result), k);
    CommitKeepsClock(db, key, PlanFinish(seen, result), k);
  }

  lemma ClaimKeepsClock(db: Database, key: string, seen: Option<Task>, pulled: Binding, audio: AudioTransaction, permitted: bool, k: string)
    ensures var t := CommitClaim(db, key, PlanClaim(seen, pulled, audio, permitted)).0;
            Attempts(t, k) == Attempts(db, k) && AttemptAt(t, k) == AttemptAt(db, k)
  {
  }

  lemma InsertKeepsClock(db: Database, key: string, draft: Draft, leaseId: string, leaseUntil: int, receivedAt: int, k: string)
    ensures var r := Insert(db, key, draft, leaseId, leaseUntil, receivedAt);
            r.Created? ==> Attempts(r.db, k) == Attempts(db, k) && AttemptAt(r.db, k) == AttemptAt(db, k)
  {
  }

  lemma TransitionKeepsClock(db: Database, key: string, from: MediaState, to: MediaState, k: string)
    ensures var t := Transition(db, key, from, to).0; Attempts(t, k) == Attempts(db, k) && AttemptAt(t, k) == AttemptAt(db, k)
  {
  }

  lemma OtherStepsKeepClock(s: System, e: Event, key: string)
    requires EffectOf(s, e).grant.None?
    ensures Attempts(EffectOf(s, e).db, key) == Attempts(s.db, key)
    ensures AttemptAt(EffectOf(s, e).db, key) == AttemptAt(s.db, key)
  {
    hide RetryDelay, Commit, CommitClaim, PlanUpdate, PlanRecord, PlanGrant, PlanFinish, PlanClaim, Insert, Transition;
    WriterOf(s, e);
    if !Writes(e) {
      OthersWriteNothing(s, e);
    }
    hide EffectOf;
    match e
    case CommitUpdate(id) =>
      if id in s.jobs && s.jobs[id].Updating? {
        PlansKeepClock(s.db, s.jobs[id].key, s.jobs[id].seen, s.jobs[id].status, s.jobs[id].terminal, NoResult, key);
      }
    case CommitRecord(id) =>
      if id in s.jobs && s.jobs[id].Recording? {
        PlansKeepClock(s.db, s.jobs[id].key, s.jobs[id].seen, 0, None, s.jobs[id].result, key);
      }
    case CommitFinish(id) =>
      if id in s.jobs && s.jobs[id].Finishing? {
        PlansKeepClock(s.db, s.jobs[id].key, s.jobs[id].seen, 0, None, s.jobs[id].result, key);
      }
    case CommitAudio(id) =>
      if id in s.jobs && s.jobs[id].Claiming? {
        var Claiming(k, pulled, _, audio, permitted, seen) := s.jobs[id];
        ClaimKeepsClock(s.db, k, seen, pulled, audio, permitted, key);
      }
    case CommitReservation(id, leaseId, leaseUntil, receivedAt) =>
      if id in s.jobs && s.jobs[id].Reserving? {
        InsertKeepsClock(s.db, s.jobs[id].key, s.jobs[id].draft, leaseId, leaseUntil, receivedAt, key);
      }
    case CommitState(id) =>
      if id in s.jobs && s.jobs[id].Activating? {
        TransitionKeepsClock(s.db, s.jobs[id].key, Provisioning, Answered, key);
        TransitionKeepsClock(s.db, s.jobs[id].key, Answered, MediaState.Active, key);
      }
    case CommitGrant(id) =>
      if id in s.jobs && s.jobs[id].Granting? {
        RefusedCommit(s.db, s.jobs[id].key, PlanGrant(s.jobs[id].seen, s.jobs[id].at));
      }
    case _ =>
  }

  lemma RefusedCommit(db: Database, key: string, plan: Plan)
    ensures !Commit(db, key, plan).1.Done? ==> Commit(db, key, plan).0 == db
  {
  }

  lemma StepKeepsClock(s: System, e: Event)
    requires ClockInv(s)
    ensures ClockInv(Step(s, e))
  {
    hide EffectOf, RetryDelay, Attempts, AttemptAt;
    forall key
      ensures ClockOf(Step(s, e), key)
    {
      assert ClockOf(s, key);
      if EffectOf(s, e).grant.Some? {
        GrantSource(s, e, key);
      } else {
        OtherStepsKeepClock(s, e, key);
      }
    }
  }

  // The delay in seconds: 5, 10, 20, 40, 80, 160, then 300 for ever.
  lemma RetryDelayTable(attempts: nat)
    ensures RetryDelay(attempts) == SECOND *
              (if attempts <= 1 then 5 else if attempts == 2 then 10 else if attempts == 3 then 20
               else if attempts == 4 then 40 else if attempts == 5 then 80 else if attempts == 6 then 160 else 300)
  {
    assert PowerOfTwo(1) == 2 && PowerOfTwo(2) == 4 && PowerOfTwo(3) == 8;
    assert PowerOfTwo(4) == 16 && PowerOfTwo(5) == 32 && PowerOfTwo(6) == 64;
  }

  // The least time that n grants span.
  function Span(n: nat): int {
    if n <= 1 then 0 else Span(n - 1) + RetryDelay(n - 1)
  }

  lemma {:induction false} SpacedSpan(times: seq<int>)
    requires times != [] && Spaced(times)
    ensures times[|times| - 1] - times[0] >= Span(|times|)
    decreases |times|
  {
    if |times| == 1 {
    } else {
      var front := times[..|times| - 1];
      assert Spaced(front);
      SpacedSpan(front);
    }
  }

  lemma ClockSpans(s: System, key: string)
    requires ClockInv(s)
    ensures var times := Grants(s, key);
            && Spaced(times)
            && (times != [] ==> times[|times| - 1] - times[0] >= Span(|times|))
            && |times| == Attempts(s.db, key)
  {
    assert ClockOf(s, key);
    if Grants(s, key) != [] {
      SpacedSpan(Grants(s, key));
    }
  }

  // ---- every upstream send uses one grant ----

  function SendCount(wire: seq<Message>, key: string): nat {
    if wire == [] then 0
    else SendCount(wire[..|wire| - 1], key) + (if wire[|wire| - 1].Upstream? && wire[|wire| - 1].key == key then 1 else 0)
  }

  lemma SendAppend(wire: seq<Message>, m: Message, key: string)
    ensures SendCount(wire + [m], key) == SendCount(wire, key) + (if m.Upstream? && m.key == key then 1 else 0)
  {
    assert (wire + [m])[..|wire|] == wire;
  }

  // The goroutines that hold an unused grant.
  function Holders(jobs: map<nat, Job>, key: string): set<nat> {
    set id | id in jobs && jobs[id].Delivering? && jobs[id].key == key
  }

  ghost predicate SendsWithinGrants(s: System) {
    forall key :: SendCount(s.wire, key) + |Holders(s.jobs, key)| <= |Grants(s, key)|
  }

  // A send is made by the holder of a grant, who then holds it no longer.
  lemma SendSource(s: System, e: Event)
    requires EffectOf(s, e).say.Some? && EffectOf(s, e).say.value.Upstream?
    ensures var f := EffectOf(s, e);
            && f.id in s.jobs && s.jobs[f.id].Delivering?
            && s.jobs[f.id].key == f.say.value.key && s.jobs[f.id].result == f.say.value.result
            && !f.fate.Keep? && (f.fate.Become? ==> !f.fate.job.Delivering?)
            && f.grant.None?
  {
  }

  lemma HolderSource(s: System, e: Event)
    requires EffectOf(s, e).fate.Become? && EffectOf(s, e).fate.job.Delivering?
    ensures EffectOf(s, e).grant.Some? && EffectOf(s, e).grant.value.key == EffectOf(s, e).fate.job.key
  {
  }

  lemma SubsetSize<T>(a: set<T>, b: set<T>)
    requires a <= b
    ensures |a| <= |b|
  {
    if a != {} {
      var x :| x in a;
      SubsetSize(a - {x}, b - {x});
    }
  }

  lemma StepKeepsSends(s: System, e: Event)
    requires SendsWithinGrants(s)
    ensures SendsWithinGrants(Step(s, e))
  {
    hide EffectOf, SendCount;
    var s', f := Step(s, e), EffectOf(s, e);
    forall key
      ensures SendCount(s'.wire, key) + |Holders(s'.jobs, key)| <= |Grants(s', key)|
    {
      var before, after := Holders(s.jobs, key), Holders(s'.jobs, key);
      assert SendCount(s.wire, key) + |before| <= |Grants(s, key)|;
      if f.say.Some? {
        SendAppend(s.wire, f.say.value, key);
      }
      if f.fate.Become? && f.fate.job.Delivering? {
        HolderSource(s, e);
        SubsetSize(after, if f.fate.job.key == key then before + {f.id} else before);
        if f.say.Some? && f.say.value.Upstream? { SendSource(s, e); }
      } else if f.say.Some? && f.say.value.Upstream? && f.say.value.key == key {
        SendSource(s, e);
        SubsetSize(after, before - {f.id});
      } else {
        SubsetSize(after, before);
      }
    }
  }

  // ---- what was sent is the recorded result, and delivered means accepted ----

  ghost predicate Accepted(wire: seq<Message>, key: string) {
    exists m :: m in wire && m.Upstream? && m.key == key && Success(m.status)
  }

  lemma AcceptedKept(wire: seq<Message>, wire': seq<Message>, key: string)
    requires wire <= wire' && Accepted(wire, key)
    ensures Accepted(wire', key)
  {
    var m :| m in wire && m.Upstream? && m.key == key && Success(m.status);
    assert m in wire';
  }

  // The device result that a delivering goroutine carries from its first read to its last write.
  function Carried(job: Job): Option<DeviceResult> {
    match job
    case GrantDue(_, result) => Some(result)
    case Granting(_, result, _, _) => Some(result)
    case Delivering(_, result) => Some(result)
    case FinishDue(_, result) => Some(result)
    case Finishing(_, result, _) => Some(result)
    case _ => None
  }

  predicate Finishes(job: Job) {
    job.FinishDue? || job.Finishing?
  }

  ghost predicate CarriesTruth(db: Database, job: Job) {
    Carried(job).Some? ==> ResultOf(db, job.key) == Carried(job).value && !Carried(job).value.NoResult?
  }

  ghost predicate SentTruth(db: Database, m: Message) {
    m.Upstream? ==> ResultOf(db, m.key) == m.result && !m.result.NoResult?
  }

  ghost predicate DeliveryTruth(s: System) {
    && (forall id :: id in s.jobs ==> CarriesTruth(s.db, s.jobs[id]) && (Finishes(s.jobs[id]) ==> Accepted(s.wire, s.jobs[id].key)))
    && (forall key :: Delivered(s.db, key) ==> Accepted(s.wire, key))
    && (forall m :: m in s.wire ==> SentTruth(s.db, m))
  }

  lemma ResultKept(a: Database, b: Database, key: string)
    requires DatabaseGrew(a, b) && !ResultOf(a, key).NoResult?
    ensures ResultOf(b, key) == ResultOf(a, key)
  {
    assert TaskGrew(a.tasks[key], b.tasks[key]);
  }

  lemma RecordWrites(db: Database, key: string, seen: Option<Task>, result: DeviceResult)
    requires Commit(db, key, PlanRecord(seen, result)).1.Done?
    ensures !result.NoResult? && ResultOf(Commit(db, key, PlanRecord(seen, result)).0, key) == result
  {
  }

  // A carried result was carried before, or was just recorded or listed.
  lemma CarrySource(s: System, e: Event)
    requires EffectOf(s, e).fate.Become?
    requires EffectOf(s, e).id in s.jobs ==> CarriesTruth(s.db, s.jobs[EffectOf(s, e).id])
    ensures CarriesTruth(s.db, EffectOf(s, e).fate.job) || CarriesTruth(EffectOf(s, e).db, EffectOf(s, e).fate.job)
  {
    if e.CommitRecord? && e.id in s.jobs && s.jobs[e.id].Recording? {
      var Recording(key, result, seen) := s.jobs[e.id];
      if Commit(s.db, key, PlanRecord(seen, result)).1.Done? {
        RecordWrites(s.db, key, seen, result);
      }
    }
  }

  lemma FinishSource(s: System, e: Event)
    requires EffectOf(s, e).fate.Become? && Finishes(EffectOf(s, e).fate.job)
    ensures var f := EffectOf(s, e);
            || (f.id in s.jobs && Finishes(s.jobs[f.id]) && s.jobs[f.id].key == f.fate.job.key)
            || (f.say.Some? && f.say.value.Upstream? && f.say.value.key == f.fate.job.key && Success(f.say.value.status))
  {
  }

  lemma CommitKeepsDelivered(db: Database, key: string, plan: Plan, k: string)
    requires plan.Write? ==>
               && plan.seen.summary.Encoded? && plan.next.summary.Encoded?
               && plan.next.summary.binding.resultDelivered == plan.seen.summary.binding.resultDelivered
    ensures Delivered(Commit(db, key, plan).0, k) == Delivered(db, k)
  {
  }

  // No writer but the delivery finish sets the delivered flag.
  lemma PlansKeepDelivered(db: Database, key: string, seen: Option<Task>, status: int, terminal: Option<MediaState>, result: DeviceResult,
                           at: int, k: string)
    ensures forall plan :: plan in {PlanUpdate(seen, status, terminal), PlanRecord(seen, result), PlanGrant(seen, at)} ==>
              Delivered(Commit(db, key, plan).0, k) == Delivered(db, k)
  {
    hide Commit, RetryDelay;
    CommitKeepsDelivered(db, key, PlanUpdate(seen, status, terminal), k);
    CommitKeepsDelivered(db, key, PlanRecord(seen, result), k);
    CommitKeepsDelivered(db, key, PlanGrant(seen, at), k);
  }

  lemma ClaimKeepsDelivered(db: Database, key: string, seen: Option<Task>, pulled: Binding, audio: AudioTransaction, permitted: bool,
                            k: string)
    ensures Delivered(CommitClaim(db, key, PlanClaim(seen, pulled, audio, permitted)).0, k) == Delivered(db, k)
  {
  }

  lemma FinishKeepsOthers(db: Database, key: string, plan: Plan, k: string)
    requires k != key
    ensures Delivered(Commit(db, key, plan).0, k) == Delivered(db, k)
  {
  }

  lemma DeliveredSource(s: System, e: Event, key: string)
    requires Delivered(EffectOf(s, e).db, key) && !Delivered(s.db, key)
    ensures EffectOf(s, e).id in s.jobs && Finishes(s.jobs[EffectOf(s, e).id]) && s.jobs[EffectOf(s, e).id].key == key
  {
    hide RetryDelay, Commit, CommitClaim, PlanUpdate, PlanRecord, PlanGrant, PlanFinish, PlanClaim;
    WriterOf(s, e);
    if !Writes(e) {
      OthersWriteNothing(s, e);
    }
    hide EffectOf;
    match e
    case CommitUpdate(id) =>
      if id in s.jobs && s.jobs[id].Updating? {
        PlansKeepDelivered(s.db, s.jobs[id].key, s.jobs[id].seen, s.jobs[id].status, s.jobs[id].terminal, NoResult, 0, key);
      }
    case CommitRecord(id) =>
      if id in s.jobs && s.jobs[id].Recording? {
        PlansKeepDelivered(s.db, s.jobs[id].key, s.jobs[id].seen, 0, None, s.jobs[id].result, 0, key);
      }
    case CommitGrant(id) =>
      if id in s.jobs && s.jobs[id].Granting? {
        PlansKeepDelivered(s.db, s.jobs[id].key, s.jobs[id].seen, 0, None, NoResult, s.jobs[id].at, key);
      }
    case CommitAudio(id) =>
      if id in s.jobs && s.jobs[id].Claiming? {
        var Claiming(k, pulled, _, audio, permitted, seen) := s.jobs[id];
        ClaimKeepsDelivered(s.db, k, seen, pulled, audio, permitted, key);
      }
    case CommitFinish(id) =>
      if id in s.jobs && s.jobs[id].Finishing? && s.jobs[id].key != key {
        FinishKeepsOthers(s.db, s.jobs[id].key, PlanFinish(s.jobs[id].seen, s.jobs[id].result), key);
      }
    case _ =>
  }

  lemma StepKeepsCarried(s: System, e: Event, id: nat)
    requires DeliveryTruth(s) && DatabaseGrew(s.db, Step(s, e).db) && id in Step(s, e).jobs
    ensures CarriesTruth(Step(s, e).db, Step(s, e).jobs[id])
    ensures Finishes(Step(s, e).jobs[id]) ==> Accepted(Step(s, e).wire, Step(s, e).jobs[id].key)
  {
    hide EffectOf, DatabaseGrew, ResultOf, Delivered, SentTruth;
    var s', f := Step(s, e), EffectOf(s, e);
    var job := s'.jobs[id];
    if f.fate.Become? && f.id == id {
      CarrySource(s, e);
      if Finishes(job) {
        FinishSource(s, e);
        if f.say.Some? {
          assert s'.wire[|s.wire|] in s'.wire;
        }
      }
    }
    if Carried(job).Some? && CarriesTruth(s.db, job) {
      ResultKept(s.db, s'.db, job.key);
    }
    if Accepted(s.wire, job.key) {
      AcceptedKept(s.wire, s'.wire, job.key);
    }
  }

  lemma StepKeepsDeliveryTruth(s: System, e: Event)
    requires DeliveryTruth(s) && DatabaseGrew(s.db, Step(s, e).db)
    ensures DeliveryTruth(Step(s, e))
  {
    hide EffectOf, DatabaseGrew, Delivered, ResultOf;
    var s', f := Step(s, e), EffectOf(s, e);
    forall id | id in s'.jobs {
      StepKeepsCarried(s, e, id);
    }
    forall key | Delivered(s'.db, key)
      ensures Accepted(s'.wire, key)
    {
      if !Delivered(s.db, key) {
        DeliveredSource(s, e, key);
      }
      AcceptedKept(s.wire, s'.wire, key);
    }
    forall m | m in s'.wire && m.Upstream?
      ensures SentTruth(s'.db, m)
    {
      if m in s.wire {
        assert SentTruth(s.db, m);
      } else {
        SendSource(s, e);
        assert CarriesTruth(s.db, s.jobs[f.id]);
      }
      ResultKept(s.db, s'.db, m.key);
    }
  }
}
