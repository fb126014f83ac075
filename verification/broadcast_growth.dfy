// What one writer may do to a row, whoever it is: the two-state facts that every
// conditional UPDATE keeps, and the lease rule that they keep together.
module BroadcastGrowth {
  import opened Wrappers
  import opened BroadcastTasks
  import TalkLease

  // Written once: notify status, device result, audio transaction. Never falls: delivered,
  // attempts. Never changes: everything else.
  ghost predicate BindingGrew(a: Binding, b: Binding) {
    && Stable(a) == Stable(b)
    && (a.notifyStatus != 0 ==> b.notifyStatus == a.notifyStatus)
    && (!a.deviceResult.NoResult? ==> b.deviceResult == a.deviceResult)
    && (a.resultDelivered ==> b.resultDelivered)
    && a.resultAttempts <= b.resultAttempts
    && (a.resultAttempts == b.resultAttempts ==> a.resultAttemptAt == b.resultAttemptAt)
    && (a.audio.callId != "" ==> b.audio == a.audio)
  }

  ghost predicate SummaryGrew(a: Summary, b: Summary) {
    if a.Encoded? then b.Encoded? && BindingGrew(a.binding, b.binding) else b == a
  }

  // The rank never falls and the terminal states are closed as a set.
  ghost predicate StateGrew(a: MediaState, b: MediaState) {
    a.Rank() <= b.Rank() && (a.Terminal() ==> b.Terminal())
  }

  ghost predicate TaskGrew(a: Task, b: Task) {
    && a.kind == b.kind && a.cseq == b.cseq && a.channel == b.channel && a.receivedAt == b.receivedAt
    && SummaryGrew(a.summary, b.summary)
    && StateGrew(a.state, b.state)
  }

  ghost predicate DatabaseGrew(a: Database, b: Database) {
    && (forall key :: key in a.tasks ==> key in b.tasks && TaskGrew(a.tasks[key], b.tasks[key]))
    && TalkLease.Follows(a.leases, b.leases)
  }

  lemma DatabaseGrewTrans(a: Database, b: Database, c: Database)
    requires DatabaseGrew(a, b) && DatabaseGrew(b, c)
    ensures DatabaseGrew(a, c)
  {
    TalkLease.FollowsTrans(a.leases, b.leases, c.leases);
    forall key | key in a.tasks
      ensures key in c.tasks && TaskGrew(a.tasks[key], c.tasks[key])
    {
      assert TaskGrew(a.tasks[key], b.tasks[key]) && TaskGrew(b.tasks[key], c.tasks[key]);
    }
  }

  // ---- every writer's plan respects the two-state facts ----

  ghost predicate PlanGrows(plan: Plan) {
    plan.Write? ==> SummaryGrew(plan.seen.summary, plan.next.summary) && StateGrew(plan.seen.state, plan.next.state)
  }

  lemma CommitGrows(db: Database, key: string, plan: Plan)
    requires PlanGrows(plan)
    ensures DatabaseGrew(db, Commit(db, key, plan).0)
  {
    assert plan.Write? ==> TalkLease.Follows(db.leases, ReleaseNamed(db.leases, plan.release));
    hide ReleaseNamed, TalkLease.Follows;
    TalkLease.FollowsRefl(db.leases);
  }

  lemma UpdateGrows(found: Option<Task>, status: int, terminal: Option<MediaState>)
    requires terminal.Some? ==> terminal.value.Terminal()
    ensures PlanGrows(PlanUpdate(found, status, terminal))
  {
  }

  lemma RecordGrows(found: Option<Task>, result: DeviceResult)
    ensures PlanGrows(PlanRecord(found, result))
  {
  }

  lemma FinishGrows(found: Option<Task>, result: DeviceResult)
    ensures PlanGrows(PlanFinish(found, result))
  {
  }

  lemma GrantGrows(found: Option<Task>, at: int)
    ensures PlanGrows(PlanGrant(found, at))
  {
  }

  lemma ClaimGrows(db: Database, key: string, found: Option<Task>, pulled: Binding, audio: AudioTransaction, permitted: bool)
    ensures DatabaseGrew(db, CommitClaim(db, key, PlanClaim(found, pulled, audio, permitted)).0)
  {
  }

  // ---- the lease rule ----

  predicate OwnsLease(db: Database, key: string) {
    key in db.tasks && db.tasks[key].kind.Broadcast? && db.tasks[key].summary.Encoded?
  }

  // Every broadcast row with a decodable summary has a cascade lease of its own.
  ghost predicate Registered(db: Database) {
    && (forall key :: OwnsLease(db, key) ==>
          && db.tasks[key].summary.binding.audioLeaseId != ""
          && db.tasks[key].summary.binding.audioLeaseId in db.leases
          && db.leases[db.tasks[key].summary.binding.audioLeaseId].mode.Cascade?)
    && (forall k1, k2 ::
          (OwnsLease(db, k1) && OwnsLease(db, k2)
           && db.tasks[k1].summary.binding.audioLeaseId == db.tasks[k2].summary.binding.audioLeaseId)
          ==> k1 == k2)
  }

  // The row must not hold the channel: it ended, or the device refused the broadcast.
  predicate Over(state: MediaState, result: DeviceResult) {
    state.Terminal() || result.Error?
  }

  ghost predicate LeaseRule(db: Database)
    requires Registered(db)
  {
    forall key :: OwnsLease(db, key) && Over(db.tasks[key].state, db.tasks[key].summary.binding.deviceResult)
      ==> !TalkLease.Live(db.leases, db.tasks[key].summary.binding.audioLeaseId)
  }

  // A plan that ends a row either releases its lease in the same transaction or starts
  // from a row that was over already.
  ghost predicate PlanKeepsRule(plan: Plan) {
    plan.Write? ==>
      && plan.seen.summary.Encoded? && plan.next.summary.Encoded?
      && (var b, b' := plan.seen.summary.binding, plan.next.summary.binding;
          && b'.audioLeaseId == b.audioLeaseId
          && ((Over(plan.next.state, b'.deviceResult) && !Over(plan.seen.state, b.deviceResult) && b.audioLeaseId != "")
              ==> plan.release == Some(b.audioLeaseId)))
  }

  lemma UpdateKeepsRule(found: Option<Task>, status: int, terminal: Option<MediaState>)
    ensures PlanKeepsRule(PlanUpdate(found, status, terminal))
  {
  }

  lemma RecordKeepsRule(found: Option<Task>, result: DeviceResult)
    ensures PlanKeepsRule(PlanRecord(found, result))
  {
  }

  // finish ends an ERROR row without a release: it relies on the one made when ERROR was recorded.
  lemma FinishKeepsRule(found: Option<Task>, result: DeviceResult)
    ensures PlanKeepsRule(PlanFinish(found, result))
    ensures !PlanFinish(found, result).Write? || PlanFinish(found, result).release.None?
  {
  }

  lemma GrantKeepsRule(found: Option<Task>, at: int)
    ensures PlanKeepsRule(PlanGrant(found, at))
  {
  }

  // A row keeps its lease, and if it is over now, it was so before or its lease has ended.
  ghost predicate RowCarries(db: Database, db': Database, key: string) {
    OwnsLease(db', key) ==>
      && OwnsLease(db, key)
      && (var row, row' := db.tasks[key], db'.tasks[key];
          && row'.summary.binding.audioLeaseId == row.summary.binding.audioLeaseId
          && (Over(row'.state, row'.summary.binding.deviceResult) ==>
                Over(row.state, row.summary.binding.deviceResult) || !TalkLease.Live(db'.leases, row.summary.binding.audioLeaseId)))
  }

  lemma RuleCarries(db: Database, db': Database)
    requires Registered(db) && LeaseRule(db) && TalkLease.Follows(db.leases, db'.leases)
    requires forall key :: RowCarries(db, db', key)
    ensures Registered(db') && LeaseRule(db')
  {
    assert forall key :: OwnsLease(db', key) ==> RowCarries(db, db', key);
    hide OwnsLease, Over;
  }

  lemma CommitKeepsRule(db: Database, key: string, plan: Plan)
    requires Registered(db) && LeaseRule(db) && PlanKeepsRule(plan)
    ensures Registered(Commit(db, key, plan).0) && LeaseRule(Commit(db, key, plan).0)
  {
    var db' := Commit(db, key, plan).0;
    TalkLease.FollowsRefl(db.leases);
    assert TalkLease.Follows(db.leases, db'.leases);
    hide TalkLease.Follows;
    forall k ensures RowCarries(db, db', k) {
      assert OwnsLease(db, k) ==> db.tasks[k].summary.binding.audioLeaseId != "" && db.tasks[k].summary.binding.audioLeaseId in db.leases;
    }
    hide RowCarries;
    RuleCarries(db, db');
  }

  lemma ClaimKeepsRule(db: Database, key: string, found: Option<Task>, pulled: Binding, audio: AudioTransaction, permitted: bool)
    requires Registered(db) && LeaseRule(db)
    ensures Registered(CommitClaim(db, key, PlanClaim(found, pulled, audio, permitted)).0)
    ensures LeaseRule(CommitClaim(db, key, PlanClaim(found, pulled, audio, permitted)).0)
  {
    var db' := CommitClaim(db, key, PlanClaim(found, pulled, audio, permitted)).0;
    TalkLease.FollowsRefl(db.leases);
    hide Stable, TalkLease.Follows;
    assert forall k :: RowCarries(db, db', k);
    hide RowCarries;
    RuleCarries(db, db');
  }

  lemma TransitionGrows(db: Database, key: string, from: MediaState, to: MediaState)
    requires from.Rank() <= to.Rank() && !from.Terminal()
    ensures DatabaseGrew(db, Transition(db, key, from, to).0)
  {
    TalkLease.FollowsRefl(db.leases);
    hide TalkLease.Follows;
  }

  lemma TransitionKeepsRule(db: Database, key: string, from: MediaState, to: MediaState)
    requires Registered(db) && LeaseRule(db) && !to.Terminal()
    ensures Registered(Transition(db, key, from, to).0) && LeaseRule(Transition(db, key, from, to).0)
  {
    var db' := Transition(db, key, from, to).0;
    TalkLease.FollowsRefl(db.leases);
    hide TalkLease.Follows, CanTransition;
    assert forall k :: RowCarries(db, db', k);
    hide RowCarries;
    RuleCarries(db, db');
  }

  // A created task has a new key and a new, live lease of its own.
  lemma InsertShape(db: Database, key: string, draft: Draft, leaseId: string, leaseUntil: int, receivedAt: int)
    ensures var r := Insert(db, key, draft, leaseId, leaseUntil, receivedAt);
            r.Created? ==>
              && key !in db.tasks && r.db.tasks == db.tasks[key := NewTask(draft, leaseId, receivedAt)]
              && leaseId != "" && leaseId !in db.leases && leaseId in r.db.leases && r.db.leases == db.leases[leaseId := r.db.leases[leaseId]]
              && r.db.leases[leaseId].mode.Cascade?
  {
    assert |TalkLease.PREFIX| > 0;
  }

  lemma InsertKeepsRule(db: Database, key: string, draft: Draft, leaseId: string, leaseUntil: int, receivedAt: int)
    requires Registered(db) && LeaseRule(db)
    ensures var r := Insert(db, key, draft, leaseId, leaseUntil, receivedAt);
            r.Created? ==> Registered(r.db) && LeaseRule(r.db) && DatabaseGrew(db, r.db)
  {
    InsertShape(db, key, draft, leaseId, leaseUntil, receivedAt);
    hide Insert;
    var r := Insert(db, key, draft, leaseId, leaseUntil, receivedAt);
    if r.Created? {
      InsertRegistered(db, r.db, key, draft, leaseId, receivedAt);
      hide Registered, LeaseRule, NewTask;
    }
  }

  lemma InsertRegistered(db: Database, db': Database, key: string, draft: Draft, leaseId: string, receivedAt: int)
    requires Registered(db) && LeaseRule(db) && key !in db.tasks && leaseId != "" && leaseId !in db.leases && leaseId in db'.leases
    requires db'.tasks == db.tasks[key := NewTask(draft, leaseId, receivedAt)] && db'.leases == db.leases[leaseId := db'.leases[leaseId]]
    requires db'.leases[leaseId].mode.Cascade?
    ensures Registered(db') && LeaseRule(db')
  {
    assert forall k :: OwnsLease(db', k) <==> k == key || OwnsLease(db, k);
    assert forall k :: OwnsLease(db, k) ==> db'.tasks[k] == db.tasks[k] && db.tasks[k].summary.binding.audioLeaseId != leaseId;
    hide OwnsLease;
  }

  lemma LeaseCallKeepsRule(db: Database, op: TalkLease.Op)
    requires Registered(db) && LeaseRule(db)
    ensures var db' := db.(leases := TalkLease.Apply(db.leases, op));
            Registered(db') && LeaseRule(db') && DatabaseGrew(db, db')
  {
    var db' := db.(leases := TalkLease.Apply(db.leases, op));
    TalkLease.ApplyFollows(db.leases, op);
    hide TalkLease.Apply, TalkLease.Follows;
    assert forall k :: RowCarries(db, db', k);
    hide RowCarries;
    RuleCarries(db, db');
  }

  // ---- the database invariant, one commit at a time ----

  ghost predicate DatabaseInv(db: Database) {
    Registered(db) && LeaseRule(db) && TalkLease.OneLivePerChannel(db.leases)
  }

  // One database step: the invariant is kept and nothing written before is lost.
  ghost predicate Sound(db: Database, db': Database) {
    DatabaseInv(db') && DatabaseGrew(db, db')
  }

  lemma SoundKeepsInv(db: Database, db': Database)
    requires Sound(db, db')
    ensures DatabaseInv(db')
  {
  }

  lemma SoundReflexive(db: Database)
    requires DatabaseInv(db)
    ensures Sound(db, db)
  {
  }

  lemma CommitSound(db: Database, key: string, plan: Plan)
    requires DatabaseInv(db) && PlanGrows(plan) && PlanKeepsRule(plan)
    ensures Sound(db, Commit(db, key, plan).0)
  {
    CommitGrows(db, key, plan);
    CommitKeepsRule(db, key, plan);
    if plan.Write? && plan.release.Some? {
      TalkLease.StepKeeps(db.leases, TalkLease.OpRelease(plan.release.value, TalkLease.Failed));
    }
  }

  lemma UpdateSound(db: Database, key: string, seen: Option<Task>, status: int, terminal: Option<MediaState>)
    requires DatabaseInv(db) && (terminal.Some? ==> terminal.value.Terminal())
    ensures Sound(db, Commit(db, key, PlanUpdate(seen, status, terminal)).0)
  {
    UpdateGrows(seen, status, terminal);
    UpdateKeepsRule(seen, status, terminal);
    CommitSound(db, key, PlanUpdate(seen, status, terminal));
  }

  lemma RecordSound(db: Database, key: string, seen: Option<Task>, result: DeviceResult)
    requires DatabaseInv(db)
    ensures Sound(db, Commit(db, key, PlanRecord(seen, result)).0)
  {
    RecordGrows(seen, result);
    RecordKeepsRule(seen, result);
    CommitSound(db, key, PlanRecord(seen, result));
  }

  lemma GrantSound(db: Database, key: string, seen: Option<Task>, at: int)
    requires DatabaseInv(db)
    ensures Sound(db, Commit(db, key, PlanGrant(seen, at)).0)
  {
    GrantGrows(seen, at);
    GrantKeepsRule(seen, at);
    CommitSound(db, key, PlanGrant(seen, at));
  }

  lemma FinishSound(db: Database, key: string, seen: Option<Task>, result: DeviceResult)
    requires DatabaseInv(db)
    ensures Sound(db, Commit(db, key, PlanFinish(seen, result)).0)
  {
    FinishGrows(seen, result);
    FinishKeepsRule(seen, result);
    CommitSound(db, key, PlanFinish(seen, result));
  }

  lemma ClaimSound(db: Database, key: string, seen: Option<Task>, pulled: Binding, audio: AudioTransaction, permitted: bool)
    requires DatabaseInv(db)
    ensures Sound(db, CommitClaim(db, key, PlanClaim(seen, pulled, audio, permitted)).0)
  {
    ClaimGrows(db, key, seen, pulled, audio, permitted);
    ClaimKeepsRule(db, key, seen, pulled, audio, permitted);
  }

  lemma InsertSound(db: Database, key: string, draft: Draft, leaseId: string, leaseUntil: int, receivedAt: int)
    requires DatabaseInv(db)
    ensures var r := Insert(db, key, draft, leaseId, leaseUntil, receivedAt);
            r.Created? ==> Sound(db, r.db)
  {
    InsertKeepsRule(db, key, draft, leaseId, leaseUntil, receivedAt);
    TalkLease.StepKeeps(db.leases,
      TalkLease.OpReserve(leaseId, draft.channel, draft.scope.deviceCode, draft.scope.channelCode, leaseUntil));
  }

  lemma TransitionSound(db: Database, key: string, from: MediaState, to: MediaState)
    requires DatabaseInv(db) && !to.Terminal() && !from.Terminal() && from.Rank() <= to.Rank()
    ensures Sound(db, Transition(db, key, from, to).0)
  {
    TransitionKeepsRule(db, key, from, to);
    TransitionGrows(db, key, from, to);
    hide Registered, LeaseRule, DatabaseGrew;
  }

  lemma LeaseCallSound(db: Database, op: TalkLease.Op)
    requires DatabaseInv(db)
    ensures Sound(db, db.(leases := TalkLease.Apply(db.leases, op)))
  {
    LeaseCallKeepsRule(db, op);
    TalkLease.StepKeeps(db.leases, op);
  }

  lemma ForeignSound(db: Database, key: string, row: Task)
    requires DatabaseInv(db) && key !in db.tasks && row.summary.Undecodable?
    ensures Sound(db, db.(tasks := db.tasks[key := row]))
  {
    var db' := db.(tasks := db.tasks[key := row]);
    assert forall k :: OwnsLease(db', k) <==> OwnsLease(db, k);
  }
}
