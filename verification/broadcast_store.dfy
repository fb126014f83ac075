// The transactions as the runtime performs them when nobody interferes, and the two loops
// over all rows: recovery after a restart and the periodic sweep. Every answer of the
// database, the network and the platform configuration is chosen freely (`*`); a fault
// means that the transaction was rolled back.
module BroadcastStore {
  import opened Wrappers
  import opened BroadcastTasks
  import opened BroadcastGrowth
  import BroadcastWriters
  import TalkLease

  // The row waits for its device result to be delivered upstream.
  predicate Pending(row: Task) {
    && row.kind.Broadcast? && row.summary.Encoded?
    && !row.summary.binding.deviceResult.NoResult? && !row.summary.binding.resultDelivered
  }

  predicate Nonterminal(row: Task) {
    row.kind.Broadcast? && !row.state.Terminal()
  }

  predicate LiveCascade(leases: TalkLease.Leases, id: string) {
    TalkLease.Live(leases, id) && leases[id].mode.Cascade?
  }

  // A sweep keeps such a row: its lease is live at `now` and it was claimed or is young enough.
  predicate Fresh(leases: TalkLease.Leases, row: Task, now: int) {
    && row.summary.Encoded?
    && (var id := row.summary.binding.audioLeaseId;
        && LiveCascade(leases, id) && now < leases[id].expiresAt)
    && (row.summary.binding.audio.callId != "" || now < row.receivedAt + PULL_TIMEOUT)
  }

  // Rows and leases that do not belong to broadcast tasks stay as they are.
  ghost predicate OthersUntouched(a: Database, b: Database) {
    && a.tasks.Keys == b.tasks.Keys && a.leases.Keys == b.leases.Keys
    && (forall key :: key in a.tasks && a.tasks[key].kind.Video? ==> b.tasks[key] == a.tasks[key])
    && (forall id :: id in a.leases && a.leases[id].mode.Web? ==> b.leases[id] == a.leases[id])
  }

  // Only this row and this lease may change, and the lease only by ending.
  ghost predicate OnlyRow(a: Database, b: Database, key: string, leaseId: string) {
    && OthersUntouched(a, b)
    && (forall k :: k in a.tasks && k != key ==> b.tasks[k] == a.tasks[k])
    && (forall id :: id in a.leases && b.leases[id] != a.leases[id] ==> id == leaseId && b.leases[id].state.Terminal())
  }

  lemma OnlyRowTrans(a: Database, b: Database, c: Database, key: string, leaseId: string)
    requires OnlyRow(a, b, key, leaseId) && OnlyRow(b, c, key, leaseId)
    requires key in a.tasks && a.tasks[key].kind.Broadcast? && b.tasks[key].kind.Broadcast?
    ensures OnlyRow(a, c, key, leaseId)
  {
  }

  lemma CommitOnlyRow(db: Database, key: string, plan: Plan, leaseId: string)
    requires plan.Write? && plan.release.Some? ==> plan.release.value == leaseId
    requires key in db.tasks ==> db.tasks[key].kind.Broadcast?
    ensures OnlyRow(db, Commit(db, key, plan).0, key, leaseId)
  {
  }

  ghost predicate Waiting(db: Database, key: string, leaseId: string, result: DeviceResult) {
    && key in db.tasks && Nonterminal(db.tasks[key]) && Pending(db.tasks[key])
    && db.tasks[key].summary.binding.audioLeaseId == leaseId
    && db.tasks[key].summary.binding.deviceResult == result
  }

  // The delivery of a waiting result is over: it was delivered, or the row ended for want of authorisation.
  ghost predicate Ended(db: Database, key: string, authorised: bool, result: DeviceResult) {
    && key in db.tasks && db.tasks[key].summary.Encoded? && db.tasks[key].summary.binding.deviceResult == result
    && (if authorised then db.tasks[key].summary.binding.resultDelivered else db.tasks[key].state.Aborted?)
  }

  // One transaction on behalf of one row.
  ghost predicate Local(a: Database, b: Database, key: string, leaseId: string) {
    && Sound(a, b) && OnlyRow(a, b, key, leaseId)
    && key in b.tasks && b.tasks[key].kind.Broadcast?
  }

  lemma LocalTrans(a: Database, b: Database, c: Database, key: string, leaseId: string)
    requires Local(a, b, key, leaseId) && Local(b, c, key, leaseId) && key in a.tasks && a.tasks[key].kind.Broadcast?
    ensures Local(a, c, key, leaseId)
  {
    hide OnlyRow, DatabaseInv, DatabaseGrew;
    DatabaseGrewTrans(a, b, c);
    OnlyRowTrans(a, b, c, key, leaseId);
  }

  lemma LocalRefl(db: Database, key: string, leaseId: string)
    requires DatabaseInv(db) && key in db.tasks && db.tasks[key].kind.Broadcast?
    ensures Local(db, db, key, leaseId)
  {
    SoundReflexive(db);
    hide DatabaseInv, Sound;
  }

  lemma LocalInv(a: Database, b: Database, key: string, leaseId: string)
    requires Local(a, b, key, leaseId)
    ensures DatabaseInv(b)
  {
  }

  lemma EndLocal(db: Database, key: string, end: MediaState, leaseId: string)
    requires DatabaseInv(db) && end.Terminal() && key in db.tasks && db.tasks[key].kind.Broadcast?
    requires db.tasks[key].summary.Encoded? && db.tasks[key].summary.binding.audioLeaseId == leaseId
    ensures var r := Commit(db, key, PlanUpdate(Find(db, key), 0, Some(end)));
            Local(db, r.0, key, leaseId) && r.1.Done? && key in r.0.tasks
            && r.0.tasks[key].state == (if db.tasks[key].state.Terminal() then db.tasks[key].state else end)
            && r.0.tasks[key].summary == db.tasks[key].summary
  {
    hide DatabaseInv, Sound, OnlyRow;
    UpdateSound(db, key, Find(db, key), 0, Some(end));
    CommitOnlyRow(db, key, PlanUpdate(Find(db, key), 0, Some(end)), leaseId);
  }

  // The retry clock allows an attempt, or the stored attempts contradict each other.
  predicate Attempted(b: Binding, at: int) {
    BroadcastWriters.GrantDue(b, at) || (b.resultAttemptAt.Some? && b.resultAttempts == 0)
  }

  // The reasons for a failure that is no fault: a row that cannot be decoded, and in a sweep an attempt to deliver.
  predicate Troubled(db: Database, key: string, authorised: bool, sweep: Option<int>) {
    && key in db.tasks && Nonterminal(db.tasks[key])
    && (db.tasks[key].summary.Undecodable?
        || (sweep.Some? && authorised && Pending(db.tasks[key]) && Attempted(db.tasks[key].summary.binding, sweep.value)))
  }

  lemma TroubledFrom(start: Database, before: Database, key: string, authorised: bool, sweep: Option<int>)
    requires SameOwn(start, before, key) && Troubled(before, key, authorised, sweep)
    ensures Troubled(start, key, authorised, sweep)
  {
    hide Attempted, Pending, Nonterminal;
  }

  lemma GrantLocal(db: Database, key: string, at: int, leaseId: string, result: DeviceResult)
    requires DatabaseInv(db) && Waiting(db, key, leaseId, result)
    ensures var r := Commit(db, key, PlanGrant(Find(db, key), at));
            Local(db, r.0, key, leaseId) && !r.1.NoChange? && Waiting(r.0, key, leaseId, result) && r.0.tasks[key].state == db.tasks[key].state
            && (r.1.Deferred? ==> r.0 == db && !BroadcastWriters.GrantDue(db.tasks[key].summary.binding, at))
            && (!r.1.Deferred? ==> Attempted(db.tasks[key].summary.binding, at))
  {
    hide DatabaseInv, Sound, RetryDelay, OnlyRow;
    GrantSound(db, key, Find(db, key), at);
    CommitOnlyRow(db, key, PlanGrant(Find(db, key), at), leaseId);
  }

  lemma FinishLocal(db: Database, key: string, leaseId: string, result: DeviceResult)
    requires DatabaseInv(db) && Waiting(db, key, leaseId, result)
    ensures var r := Commit(db, key, PlanFinish(Find(db, key), result));
            Local(db, r.0, key, leaseId) && r.1.Done? && key in r.0.tasks && r.0.tasks[key].summary.Encoded?
            && r.0.tasks[key].summary.binding.resultDelivered && r.0.tasks[key].summary.binding.deviceResult == result
  {
    hide DatabaseInv, Sound, OnlyRow;
    FinishSound(db, key, Find(db, key), result);
    CommitOnlyRow(db, key, PlanFinish(Find(db, key), result), leaseId);
  }

  lemma ReleaseLocal(db: Database, key: string, leaseId: string)
    requires DatabaseInv(db) && key in db.tasks && db.tasks[key].kind.Broadcast?
    ensures Local(db, db.(leases := TalkLease.Release(db.leases, leaseId, TalkLease.Failed)), key, leaseId)
  {
    ReleaseSound(db, leaseId);
    ReleaseOnlyRow(db, key, leaseId);
    hide DatabaseInv, Sound, OnlyRow, TalkLease.Release;
  }

  lemma ReleaseSound(db: Database, leaseId: string)
    requires DatabaseInv(db)
    ensures Sound(db, db.(leases := TalkLease.Release(db.leases, leaseId, TalkLease.Failed)))
  {
    hide DatabaseInv, Sound, TalkLease.Release;
    LeaseCallSound(db, TalkLease.OpRelease(leaseId, TalkLease.Failed));
  }

  lemma ReleaseOnlyRow(db: Database, key: string, leaseId: string)
    ensures OnlyRow(db, db.(leases := TalkLease.Release(db.leases, leaseId, TalkLease.Failed)), key, leaseId)
  {
  }

  // What handling one row does to the whole database.
  ghost predicate Advanced(a: Database, b: Database, key: string) {
    && Sound(a, b) && OthersUntouched(a, b)
    && (forall k :: k in a.tasks && k != key ==> b.tasks[k] == a.tasks[k])
    && (forall id :: id in a.leases && b.leases[id] != a.leases[id] ==>
          OwnsLease(a, key) && id == a.tasks[key].summary.binding.audioLeaseId)
  }

  lemma LocalAdvances(a: Database, b: Database, key: string, leaseId: string)
    requires Local(a, b, key, leaseId)
    requires OwnsLease(a, key) && leaseId == a.tasks[key].summary.binding.audioLeaseId
    ensures Advanced(a, b, key)
  {
    hide Sound;
  }

  lemma AdvancedRefl(db: Database, key: string)
    requires DatabaseInv(db)
    ensures Advanced(db, db, key)
  {
    SoundReflexive(db);
    hide Sound;
  }

  lemma SoundTrans(a: Database, b: Database, c: Database)
    requires Sound(a, b) && Sound(b, c)
    ensures Sound(a, c)
  {
    hide DatabaseInv, DatabaseGrew;
    DatabaseGrewTrans(a, b, c);
  }

  lemma AdvancedFacts(a: Database, b: Database, c: Database, key: string)
    requires Sound(a, b) && OthersUntouched(a, b) && Advanced(b, c, key)
    ensures Sound(a, c) && OthersUntouched(a, c)
    ensures forall k :: k in b.tasks && k != key ==> k in c.tasks && c.tasks[k] == b.tasks[k]
  {
    SoundTrans(a, b, c);
    hide Sound;
  }

  lemma ReleaseAdvances(start: Database, before: Database, id: string)
    requires Sound(start, before) && OthersUntouched(start, before)
    ensures var now := before.(leases := TalkLease.Release(before.leases, id, TalkLease.Failed));
            Sound(start, now) && OthersUntouched(start, now)
  {
    SoundKeepsInv(start, before);
    var now := before.(leases := TalkLease.Release(before.leases, id, TalkLease.Failed));
    ReleaseSound(before, id);
    SoundTrans(start, before, now);
    hide Sound, DatabaseInv;
  }

  ghost predicate Listed(leases: TalkLease.Leases, ids: seq<string>) {
    forall id :: LiveCascade(leases, id) ==> id in ids
  }

  // No audio reservation of this runtime is live among the first `i` ids.
  ghost predicate EndedUpTo(leases: TalkLease.Leases, ids: seq<string>, i: nat) {
    i <= |ids| && forall j :: 0 <= j < i && TalkLease.HasPrefix(ids[j]) ==> !LiveCascade(leases, ids[j])
  }

  lemma EndedNext(leases: TalkLease.Leases, ids: seq<string>, i: nat)
    requires i < |ids| && Listed(leases, ids)
    ensures var after := TalkLease.Release(leases, ids[i], TalkLease.Failed);
            Listed(after, ids) && (EndedUpTo(leases, ids, i) ==> EndedUpTo(after, ids, i + 1))
    ensures EndedUpTo(leases, ids, i) && !TalkLease.HasPrefix(ids[i]) ==> EndedUpTo(leases, ids, i + 1)
  {
    hide TalkLease.HasPrefix;
    var after := TalkLease.Release(leases, ids[i], TalkLease.Failed);
    assert forall id :: LiveCascade(after, id) ==> LiveCascade(leases, id) && id != ids[i];
    hide TalkLease.Release, LiveCascade;
  }

  // A lease that is not an audio reservation of this runtime is as it was.
  ghost predicate OthersKept(before: TalkLease.Leases, after: TalkLease.Leases) {
    forall id :: id in before && !TalkLease.HasPrefix(id) ==> id in after && after[id] == before[id]
  }

  lemma ReleaseKeepsOthers(start: TalkLease.Leases, before: TalkLease.Leases, id: string)
    requires OthersKept(start, before) && TalkLease.HasPrefix(id)
    ensures OthersKept(start, TalkLease.Release(before, id, TalkLease.Failed))
  {
    hide TalkLease.HasPrefix;
  }

  lemma EndedAll(leases: TalkLease.Leases, ids: seq<string>)
    requires Listed(leases, ids)
    ensures EndedUpTo(leases, ids, |ids|) ==> forall id :: LiveCascade(leases, id) ==> !TalkLease.HasPrefix(id)
  {
    hide LiveCascade, TalkLease.HasPrefix;
  }

  // Every open task waits for the delivery of its result.
  ghost predicate OnlyPending(db: Database) {
    forall key :: key in db.tasks && Nonterminal(db.tasks[key]) ==> Pending(db.tasks[key])
  }

  // ---- what its turn may do to one row ----

  // The row of `key` and the lease that it owns are as they were.
  ghost predicate SameOwn(a: Database, b: Database, key: string) {
    && key in a.tasks && key in b.tasks && b.tasks[key] == a.tasks[key]
    && (OwnsLease(a, key) ==>
          var id := a.tasks[key].summary.binding.audioLeaseId;
          id in a.leases && id in b.leases && b.leases[id] == a.leases[id])
  }

  // An open row without a waiting result that is neither expired nor without its lease.
  predicate Healthy(db: Database, key: string, now: int) {
    && key in db.tasks && Nonterminal(db.tasks[key]) && db.tasks[key].summary.Encoded? && !Pending(db.tasks[key])
    && (var b := db.tasks[key].summary.binding;
        && b.audioLeaseId in db.leases && db.leases[b.audioLeaseId].mode.Cascade?
        && !db.leases[b.audioLeaseId].state.Terminal() && now < db.leases[b.audioLeaseId].expiresAt
        && (b.audio.callId != "" || now < db.tasks[key].receivedAt + 30_000_000_000))
  }

  // A row whose result waited still waits, or was delivered, or ended Aborted for want of authorisation.
  ghost predicate WaitJudged(a: Task, b: Task, authorised: bool) {
    && a.summary.Encoded? && b.summary.Encoded? && b.summary.binding.deviceResult == a.summary.binding.deviceResult
    && (b.summary.binding.resultDelivered || b.state == a.state || (!authorised && b.state.Aborted?))
  }

  // A waiting row was served at `now`: it ended for want of authorisation, or was delivered, or its retry clock allowed
  // no attempt and it is as it was.
  ghost predicate Served(a: Task, b: Task, authorised: bool, now: int) {
    && a.summary.Encoded? && b.summary.Encoded?
    && (if !authorised then b.state.Aborted?
        else b.summary.binding.resultDelivered || (b == a && !BroadcastWriters.GrantDue(a.summary.binding, now)))
  }

  // The law of one row's turn. In a sweep at `sweep` a healthy authorised row is left alone, and what ends is Aborted
  // for want of authorisation and Failed otherwise; a recovery ends every row whose result does not wait. `ok` means
  // that no failure was recorded.
  ghost predicate Judged(start: Database, now: Database, key: string, authorised: bool, sweep: Option<int>, ok: bool) {
    key in start.tasks && Nonterminal(start.tasks[key]) ==>
      && key in now.tasks
      && (Pending(start.tasks[key]) ==> WaitJudged(start.tasks[key], now.tasks[key], authorised))
      && (match sweep
          case None =>
            && (!Pending(start.tasks[key]) && now.tasks[key].state != start.tasks[key].state ==> now.tasks[key].state.Aborted?)
            && (ok ==> now.tasks[key].state.Terminal() || Pending(now.tasks[key]))
          case Some(time) =>
            && (Healthy(start, key, time) && authorised ==> SameOwn(start, now, key))
            && (!Pending(start.tasks[key]) && now.tasks[key].state != start.tasks[key].state ==>
                  now.tasks[key].state == if authorised then Failed else Aborted)
            && (ok && Pending(start.tasks[key]) ==> Served(start.tasks[key], now.tasks[key], authorised, time))
            && (ok && Nonterminal(now.tasks[key]) ==>
                  Pending(start.tasks[key]) || (authorised && Fresh(now.leases, now.tasks[key], time))))
  }

  lemma JudgedStays(start: Database, before: Database, now: Database, key: string, authorised: bool, sweep: Option<int>, ok: bool)
    requires Judged(start, before, key, authorised, sweep, ok) && (key in before.tasks ==> SameOwn(before, now, key))
    ensures Judged(start, now, key, authorised, sweep, ok)
  {
    hide Healthy, WaitJudged, Pending, Served;
    if sweep.Some? && key in start.tasks && Nonterminal(start.tasks[key]) && Healthy(start, key, sweep.value) && authorised {
      SameOwnTrans(start, before, now, key);
    }
  }

  lemma JudgedFrom(start: Database, before: Database, now: Database, key: string, authorised: bool, sweep: Option<int>, ok: bool)
    requires Judged(before, now, key, authorised, sweep, ok) && SameOwn(start, before, key)
    ensures Judged(start, now, key, authorised, sweep, ok)
  {
    if sweep.Some? && Healthy(start, key, sweep.value) && authorised {
      assert OwnsLease(start, key);
      assert Healthy(before, key, sweep.value);
      SameOwnTrans(start, before, now, key);
    }
    hide Healthy, WaitJudged, Pending, Fresh, SameOwn, Served;
  }

  lemma SameOwnTrans(a: Database, b: Database, c: Database, key: string)
    requires SameOwn(a, b, key) && SameOwn(b, c, key)
    ensures SameOwn(a, c, key)
  {
  }

  lemma SameOwnRefl(db: Database, key: string)
    requires DatabaseInv(db) && key in db.tasks
    ensures SameOwn(db, db, key)
  {
    hide LeaseRule, TalkLease.OneLivePerChannel;
  }

  // The turn of one row leaves the others and their leases alone.
  lemma AdvancedOwn(before: Database, now: Database, other: string, key: string)
    requires DatabaseInv(before) && Advanced(before, now, other) && key != other && key in before.tasks
    ensures SameOwn(before, now, key)
  {
    hide LeaseRule, Sound, TalkLease.OneLivePerChannel;
    if OwnsLease(before, key) {
      var id := before.tasks[key].summary.binding.audioLeaseId;
      assert id in before.leases && id in now.leases;
    }
  }

  // ---- a loop over the open rows ----

  ghost predicate AllJudged(start: Database, now: Database, keys: seq<string>, i: nat, authorised: string -> bool, sweep: Option<int>, ok: bool) {
    i <= |keys| && forall j :: 0 <= j < i ==> Judged(start, now, keys[j], authorised(keys[j]), sweep, ok)
  }

  // A loop over the open rows has handled keys[..i] and touched nothing else.
  ghost predicate Walked(start: Database, now: Database, keys: seq<string>, i: nat) {
    && Sound(start, now) && OthersUntouched(start, now)
    && i <= |keys|
    && (forall a, b :: 0 <= a < b < |keys| ==> keys[a] != keys[b])
    && (forall key :: key in keys <==> key in start.tasks && Nonterminal(start.tasks[key]))
    && (forall key :: key in start.tasks && key !in keys[..i] ==> SameOwn(start, now, key))
  }

  lemma WalkStarts(start: Database, keys: seq<string>)
    requires DatabaseInv(start)
    requires forall a, b :: 0 <= a < b < |keys| ==> keys[a] != keys[b]
    requires forall key :: key in keys <==> key in start.tasks && Nonterminal(start.tasks[key])
    ensures Walked(start, start, keys, 0)
  {
    SoundReflexive(start);
    forall key | key in start.tasks ensures SameOwn(start, start, key) {
      SameOwnRefl(start, key);
    }
    hide Sound, SameOwn;
  }

  lemma WalkFacts(start: Database, now: Database, keys: seq<string>, i: nat)
    requires Walked(start, now, keys, i) && i < |keys|
    ensures DatabaseInv(now) && keys[i] in now.tasks && Nonterminal(now.tasks[keys[i]]) && SameOwn(start, now, keys[i])
  {
    SoundKeepsInv(start, now);
    hide Sound, DatabaseInv;
    assert keys[i] in keys && keys[i] !in keys[..i];
  }

  lemma WalkSteps(start: Database, before: Database, now: Database, keys: seq<string>, i: nat)
    requires Walked(start, before, keys, i) && i < |keys| && Advanced(before, now, keys[i])
    ensures Walked(start, now, keys, i + 1)
  {
    WalkFacts(start, before, keys, i);
    hide Nonterminal, Pending, SameOwn, DatabaseInv;
    assert keys[i] in keys;
    AdvancedFacts(start, before, now, keys[i]);
    hide Sound, OthersUntouched, Advanced;
    assert keys[..i + 1] == keys[..i] + [keys[i]];
    forall key | key in start.tasks && key !in keys[..i + 1] ensures SameOwn(start, now, key) {
      assert key !in keys[..i];
      SameOwnIn(start, before, key);
      AdvancedOwn(before, now, keys[i], key);
      SameOwnTrans(start, before, now, key);
    }
  }

  lemma SameOwnIn(a: Database, b: Database, key: string)
    requires SameOwn(a, b, key)
    ensures key in a.tasks && key in b.tasks && b.tasks[key] == a.tasks[key]
  {
  }

  lemma WalkKnows(start: Database, now: Database, keys: seq<string>, i: nat, j: nat)
    requires Walked(start, now, keys, i) && j < i < |keys|
    ensures keys[j] in now.tasks && keys[j] != keys[i]
  {
    hide Sound, SameOwn;
    assert keys[j] in keys;
  }

  lemma JudgedAt(start: Database, now: Database, keys: seq<string>, i: nat, j: nat, authorised: string -> bool, sweep: Option<int>, ok: bool)
    requires AllJudged(start, now, keys, i, authorised, sweep, ok) && j < i
    ensures Judged(start, now, keys[j], authorised(keys[j]), sweep, ok)
  {
    hide Judged;
  }

  lemma JudgedAll(start: Database, now: Database, keys: seq<string>, n: nat, authorised: string -> bool, sweep: Option<int>, ok: bool)
    requires n <= |keys| && forall j :: 0 <= j < n ==> Judged(start, now, keys[j], authorised(keys[j]), sweep, ok)
    ensures AllJudged(start, now, keys, n, authorised, sweep, ok)
  {
    hide Judged;
  }

  lemma JudgedWeaker(start: Database, now: Database, key: string, authorised: bool, sweep: Option<int>, ok: bool)
    requires Judged(start, now, key, authorised, sweep, ok)
    ensures Judged(start, now, key, authorised, sweep, false)
  {
  }

  lemma WalkJudges(start: Database, before: Database, now: Database, keys: seq<string>, i: nat, authorised: string -> bool,
                   sweep: Option<int>, soFar: bool, ok: bool)
    requires Walked(start, before, keys, i) && i < |keys| && Advanced(before, now, keys[i])
    requires AllJudged(start, before, keys, i, authorised, sweep, soFar)
    requires Judged(before, now, keys[i], authorised(keys[i]), sweep, ok)
    ensures AllJudged(start, now, keys, i + 1, authorised, sweep, soFar && ok)
  {
    hide DatabaseInv, Sound, Advanced, Judged, Walked, AllJudged, SameOwn;
    WalkFacts(start, before, keys, i);
    JudgedFrom(start, before, now, keys[i], authorised(keys[i]), sweep, ok);
    if !soFar {
      JudgedWeaker(start, now, keys[i], authorised(keys[i]), sweep, ok);
    }
    forall j | 0 <= j < i
      ensures Judged(start, now, keys[j], authorised(keys[j]), sweep, soFar && ok)
    {
      WalkKnows(start, before, keys, i, j);
      JudgedAt(start, before, keys, i, j, authorised, sweep, soFar);
      AdvancedOwn(before, now, keys[i], keys[j]);
      JudgedStays(start, before, now, keys[j], authorised(keys[j]), sweep, soFar);
      if !ok {
        JudgedWeaker(start, now, keys[j], authorised(keys[j]), sweep, soFar);
      }
    }
    JudgedAll(start, now, keys, i + 1, authorised, sweep, soFar && ok);
  }

  // Of every row: the law of its turn, and if it had ended before, nothing.
  ghost predicate EveryRowJudged(start: Database, now: Database, authorised: string -> bool, sweep: Option<int>, ok: bool) {
    forall key :: key in start.tasks ==>
      if Nonterminal(start.tasks[key]) then Judged(start, now, key, authorised(key), sweep, ok) else SameOwn(start, now, key)
  }

  lemma WalkEnds(start: Database, now: Database, keys: seq<string>, authorised: string -> bool, sweep: Option<int>, ok: bool)
    requires Walked(start, now, keys, |keys|) && AllJudged(start, now, keys, |keys|, authorised, sweep, ok)
    ensures Sound(start, now) && OthersUntouched(start, now) && EveryRowJudged(start, now, authorised, sweep, ok)
  {
    hide Sound, Judged, SameOwn, OthersUntouched;
    assert keys[..|keys|] == keys;
    forall key | key in start.tasks && Nonterminal(start.tasks[key])
      ensures Judged(start, now, key, authorised(key), sweep, ok)
    {
      assert key in keys;
      var j :| 0 <= j < |keys| && keys[j] == key;
      assert Judged(start, now, keys[j], authorised(keys[j]), sweep, ok);
    }
  }

  // A clean recovery leaves only rows open whose result still waits.
  lemma RecoveredOpenRowsWait(start: Database, now: Database, authorised: string -> bool)
    requires EveryRowJudged(start, now, authorised, None, true) && OthersUntouched(start, now)
    ensures OnlyPending(now)
  {
    hide WaitJudged, Pending;
    forall key | key in now.tasks && Nonterminal(now.tasks[key]) ensures Pending(now.tasks[key]) {
      assert key in start.tasks;
      assert Nonterminal(start.tasks[key]) ==> Judged(start, now, key, authorised(key), None, true);
    }
  }

  lemma JudgedSame(db: Database, key: string, authorised: bool, now: int, ok: bool)
    requires DatabaseInv(db) && key in db.tasks
    requires ok ==> !Pending(db.tasks[key]) && authorised && Fresh(db.leases, db.tasks[key], now)
    ensures Judged(db, db, key, authorised, Some(now), ok)
  {
    SameOwnRefl(db, key);
    hide DatabaseInv, SameOwn, Fresh, Healthy, Served;
  }

  lemma JudgedEnded(db: Database, after: Database, key: string, authorised: bool, now: int, ok: bool)
    requires key in db.tasks && key in after.tasks && !Pending(db.tasks[key]) && !(Healthy(db, key, now) && authorised)
    requires after.tasks[key].state == if authorised then Failed else Aborted
    ensures Judged(db, after, key, authorised, Some(now), ok)
  {
    hide Healthy, SameOwn, Fresh, Served;
  }

  lemma JudgedDelivered(db: Database, after: Database, key: string, authorised: bool, now: int, leaseId: string, ok: bool)
    requires key in db.tasks && Pending(db.tasks[key])
    requires var result := db.tasks[key].summary.binding.deviceResult;
             || Ended(after, key, authorised, result)
             || (Waiting(after, key, leaseId, result) && after.tasks[key].state == db.tasks[key].state
                 && (ok ==> authorised && after.tasks[key] == db.tasks[key]
                            && !BroadcastWriters.GrantDue(db.tasks[key].summary.binding, now)))
    ensures Judged(db, after, key, authorised, Some(now), ok)
  {
    hide SameOwn, Fresh, BroadcastWriters.GrantDue;
  }

  // The test of the loop is the health of the row.
  lemma ExpiredExactly(db: Database, key: string, now: int, expired: bool)
    requires key in db.tasks && Nonterminal(db.tasks[key]) && db.tasks[key].summary.Encoded? && !Pending(db.tasks[key])
    requires var b := db.tasks[key].summary.binding;
             expired <==> (b.audio.callId == "" && !(now < db.tasks[key].receivedAt + PULL_TIMEOUT))
                          || !LiveCascade(db.leases, b.audioLeaseId) || !(now < db.leases[b.audioLeaseId].expiresAt)
    ensures !expired <==> Healthy(db, key, now)
    ensures !expired <==> Fresh(db.leases, db.tasks[key], now)
  {
  }

  lemma RecoveredRows(start: Database, now: Database, authorised: string -> bool, ok: bool)
    requires EveryRowJudged(start, now, authorised, None, ok) && OthersUntouched(start, now)
    ensures forall key :: key in start.tasks && start.tasks[key].kind.Broadcast? && start.tasks[key].state.Terminal() ==>
              key in now.tasks && now.tasks[key] == start.tasks[key]
    ensures forall key :: key in start.tasks && Nonterminal(start.tasks[key]) && Pending(start.tasks[key]) ==>
              key in now.tasks && WaitJudged(start.tasks[key], now.tasks[key], authorised(key))
    ensures forall key :: key in start.tasks && Nonterminal(start.tasks[key]) && !Pending(start.tasks[key]) ==>
              key in now.tasks && now.tasks[key].state in {start.tasks[key].state, Aborted}
    ensures ok ==> forall key :: key in now.tasks && Nonterminal(now.tasks[key]) ==> Pending(now.tasks[key])
  {
    hide WaitJudged, Pending;
    if ok {
      RecoveredOpenRowsWait(start, now, authorised);
    }
    forall key | key in start.tasks && Nonterminal(start.tasks[key]) && !Pending(start.tasks[key])
      ensures key in now.tasks && now.tasks[key].state in {start.tasks[key].state, Aborted}
    {
      assert Judged(start, now, key, authorised(key), None, ok);
    }
    forall key | key in start.tasks && Nonterminal(start.tasks[key]) && Pending(start.tasks[key])
      ensures key in now.tasks && WaitJudged(start.tasks[key], now.tasks[key], authorised(key))
    {
      assert Judged(start, now, key, authorised(key), None, ok);
    }
  }

  lemma SweptRows(start: Database, now: Database, authorised: string -> bool, time: int, ok: bool)
    requires EveryRowJudged(start, now, authorised, Some(time), ok) && OthersUntouched(start, now)
    ensures forall key :: key in start.tasks && start.tasks[key].kind.Broadcast? && start.tasks[key].state.Terminal() ==>
              key in now.tasks && now.tasks[key] == start.tasks[key]
    ensures forall key :: Healthy(start, key, time) && authorised(key) ==> SameOwn(start, now, key)
    ensures forall key :: key in start.tasks && Nonterminal(start.tasks[key]) && !Pending(start.tasks[key]) ==>
              key in now.tasks && now.tasks[key].state in {start.tasks[key].state, if authorised(key) then Failed else Aborted}
    ensures forall key :: key in start.tasks && Nonterminal(start.tasks[key]) && Pending(start.tasks[key]) ==>
              key in now.tasks && WaitJudged(start.tasks[key], now.tasks[key], authorised(key))
    ensures ok ==> forall key :: key in now.tasks && Nonterminal(now.tasks[key]) ==>
              (key in start.tasks && Pending(start.tasks[key])) || (authorised(key) && Fresh(now.leases, now.tasks[key], time))
    ensures ok ==> forall key :: key in start.tasks && Nonterminal(start.tasks[key]) && Pending(start.tasks[key]) ==>
              key in now.tasks && Served(start.tasks[key], now.tasks[key], authorised(key), time)
  {
    hide WaitJudged, Pending, Fresh, Served;
    assert forall key :: key in start.tasks && Nonterminal(start.tasks[key]) ==> Judged(start, now, key, authorised(key), Some(time), ok);
  }

  lemma NothingSwept(db: Database, time: int)
    requires DatabaseInv(db)
    ensures forall key :: Healthy(db, key, time) ==> SameOwn(db, db, key)
    ensures forall key, ok :: key in db.tasks && Pending(db.tasks[key]) ==> WaitJudged(db.tasks[key], db.tasks[key], ok)
  {
    forall key | Healthy(db, key, time) ensures SameOwn(db, db, key) {
      SameOwnRefl(db, key);
    }
  }

  lemma LocalKeepsLease(a: Database, b: Database, key: string, leaseId: string)
    requires Local(a, b, key, leaseId) && key in a.tasks && a.tasks[key].summary.Encoded?
    requires a.tasks[key].summary.binding.audioLeaseId == leaseId
    ensures b.tasks[key].summary.Encoded? && b.tasks[key].summary.binding.audioLeaseId == leaseId
  {
    assert TaskGrew(a.tasks[key], b.tasks[key]);
    assert Stable(a.tasks[key].summary.binding).audioLeaseId == leaseId;
  }

  class Store {
    var tasks: map<string, Task>
    var leases: TalkLease.Leases

    constructor (tasks: map<string, Task>, leases: TalkLease.Leases)
      ensures View() == Database(tasks, leases)
    {
      this.tasks, this.leases := tasks, leases;
    }

    ghost function View(): Database
      reads this
    {
      Database(tasks, leases)
    }

    method UpdateBroadcast(key: string, notifyStatus: int, terminal: Option<MediaState>, fault: bool) returns (r: Outcome)
      modifies this
      ensures fault ==> View() == old(View()) && r == Refused(StoreFault)
      ensures !fault ==> (View(), r) == Commit(old(View()), key, PlanUpdate(Find(old(View()), key), notifyStatus, terminal))
    {
      if fault { return Refused(StoreFault); }
      if key !in tasks || !tasks[key].kind.Broadcast? { return Refused(Missing); }
      var row := tasks[key];
      if row.summary.Undecodable? { return Refused(BadSummary); }
      var binding := row.summary.binding;
      if notifyStatus != 0 && binding.notifyStatus == 0 {
        binding := binding.(notifyStatus := notifyStatus);
      }
      if terminal.Some? {
        if !row.state.Terminal() {
          row := row.(state := terminal.value);
        }
        if binding.audioLeaseId != "" {
          leases := TalkLease.Release(leases, binding.audioLeaseId, TalkLease.Failed);
        }
      } else if row.state.Terminal() {
        return Refused(EndedDuringNotify);
      }
      tasks := tasks[key := row.(summary := Encoded(binding))];
      return Done;
    }

    method RecordBroadcastResult(key: string, result: DeviceResult, fault: bool) returns (r: Outcome)
      modifies this
      ensures fault && !result.NoResult? ==> View() == old(View()) && r == Refused(StoreFault)
      ensures !fault ==> (View(), r) == Commit(old(View()), key, PlanRecord(Find(old(View()), key), result))
    {
      if result.NoResult? { return Refused(InvalidResult); }
      if fault { return Refused(StoreFault); }
      if key !in tasks || !tasks[key].kind.Broadcast? || tasks[key].state.Terminal() { return Refused(NotActive); }
      var row := tasks[key];
      if row.summary.Undecodable? { return Refused(BadSummary); }
      var binding := row.summary.binding;
      if !binding.deviceResult.NoResult? && binding.deviceResult != result { return Refused(ResultChanged); }
      binding := binding.(deviceResult := result);
      if result.Error? && binding.audioLeaseId != "" {
        leases := TalkLease.Release(leases, binding.audioLeaseId, TalkLease.Failed);
      }
      tasks := tasks[key := row.(summary := Encoded(binding))];
      return Done;
    }

    method ClaimBroadcastResultDelivery(key: string, at: int, fault: bool) returns (r: Outcome)
      modifies this
      ensures fault ==> View() == old(View()) && r == Refused(StoreFault)
      ensures !fault ==> (View(), r) == Commit(old(View()), key, PlanGrant(Find(old(View()), key), at))
    {
      if fault { return Refused(StoreFault); }
      if key !in tasks || !tasks[key].kind.Broadcast? || tasks[key].state.Terminal() { return Refused(NotActive); }
      var row := tasks[key];
      if row.summary.Undecodable? { return Refused(BadSummary); }
      var binding := row.summary.binding;
      if binding.deviceResult.NoResult? || binding.resultDelivered { return Refused(NotAwaiting); }
      if binding.resultAttemptAt.Some? && binding.resultAttempts == 0 { return Refused(InvalidClaim); }
      if binding.resultAttemptAt.Some? && at < binding.resultAttemptAt.value + RetryDelay(binding.resultAttempts) {
        return Deferred;
      }
      binding := binding.(resultAttemptAt := Some(at), resultAttempts := binding.resultAttempts + 1);
      tasks := tasks[key := row.(summary := Encoded(binding))];
      return Done;
    }

    method FinishBroadcastResult(key: string, result: DeviceResult, fault: bool) returns (r: Outcome)
      modifies this
      ensures fault ==> View() == old(View()) && r == Refused(StoreFault)
      ensures !fault ==> (View(), r) == Commit(old(View()), key, PlanFinish(Find(old(View()), key), result))
    {
      if fault { return Refused(StoreFault); }
      if key !in tasks || !tasks[key].kind.Broadcast? { return Refused(Missing); }
      var row := tasks[key];
      if row.summary.Undecodable? { return Refused(BadSummary); }
      var binding := row.summary.binding;
      if binding.deviceResult != result { return Refused(NotRecorded); }
      if binding.resultDelivered { return NoChange; }
      binding := binding.(resultDelivered := true);
      if result.Error? {
        row := row.(state := Failed);
      } else if row.state.Provisioning? {
        row := row.(state := Answered);
      }
      tasks := tasks[key := row.(summary := Encoded(binding))];
      return Done;
    }

    method ReserveBroadcast(key: string, draft: Draft, leaseId: string, leaseUntil: int, receivedAt: int, authorised: bool)
      returns (created: bool, r: Reservation)
      modifies this
      ensures key in old(tasks) || authorised ==> r == Insert(old(View()), key, draft, leaseId, leaseUntil, receivedAt)
      ensures key !in old(tasks) && !authorised ==> r == Failure
      ensures created <==> key !in old(tasks) && authorised
                           && old(TalkLease.CanReserve(leases, leaseId, draft.channel, draft.scope.deviceCode, draft.scope.channelCode))
      ensures created == r.Created? && View() == (if r.Created? then r.db else old(View()))
    {
      if key in tasks { return false, AcceptExisting(tasks[key], draft); }
      if !authorised { return false, Failure; }
      var lease := TalkLease.Reserve(leases, leaseId, draft.channel, draft.scope.deviceCode, draft.scope.channelCode, leaseUntil);
      if lease.ChannelBusy? { return false, Busy; }
      if !lease.Reserved? { return false, Failure; }
      leases := lease.leases;
      tasks := tasks[key := NewTask(draft, leaseId, receivedAt)];
      return true, Created(Database(tasks, leases));
    }

    // deliverPendingBroadcastResult; an error or a deferral leaves the row waiting.
    method DeliverPending(key: string, at: int, authorised: bool, ghost leaseId: string) returns (r: Outcome, faulted: bool)
      requires DatabaseInv(View()) && key in tasks && Nonterminal(tasks[key]) && Pending(tasks[key])
      requires leaseId == tasks[key].summary.binding.audioLeaseId
      modifies this
      ensures Local(old(View()), View(), key, leaseId)
      ensures var result := old(tasks[key].summary.binding.deviceResult);
              if r.Done? then Ended(View(), key, authorised, result)
              else Waiting(View(), key, leaseId, result) && tasks[key].state == old(tasks[key].state)
      ensures r.Deferred? ==> authorised && View() == old(View()) && !BroadcastWriters.GrantDue(old(tasks[key].summary.binding), at)
      ensures !r.NoChange? && (r.Refused? && !faulted ==> authorised && old(Attempted(tasks[key].summary.binding, at)))
    {
      hide Local, DatabaseInv, Commit, PlanGrant, PlanFinish, PlanUpdate, Attempted;
      ghost var start := View();
      LocalRefl(start, key, leaseId);
      var platformFault: bool := *;
      if platformFault { return Refused(StoreFault), true; }
      var fault: bool := *;
      if !authorised {
        EndLocal(start, key, Aborted, leaseId);
        r := UpdateBroadcast(key, 0, Some(Aborted), fault);
        return r, fault;
      }
      var result, lease := tasks[key].summary.binding.deviceResult, tasks[key].summary.binding.audioLeaseId;
      GrantLocal(start, key, at, leaseId, result);
      r := ClaimBroadcastResultDelivery(key, at, fault);
      if !r.Done? { return r, fault; }
      if result.Error? {
        var releaseFault: bool := *;
        if releaseFault { return Refused(StoreFault), true; }
        ghost var granted := View();
        assert DatabaseInv(granted) by { LocalInv(start, granted, key, leaseId); }
        ReleaseLocal(granted, key, leaseId);
        leases := TalkLease.Release(leases, lease, TalkLease.Failed);
        LocalTrans(start, granted, View(), key, leaseId);
      }
      var accepted: bool := *;
      if !accepted { return Refused(SendFailed), false; }
      fault := *;
      ghost var sent := View();
      assert DatabaseInv(sent) by { LocalInv(start, sent, key, leaseId); }
      FinishLocal(sent, key, leaseId, result);
      r := FinishBroadcastResult(key, result, fault);
      if !fault { LocalTrans(start, sent, View(), key, leaseId); }
      return r, fault;
    }

    method ListNonterminalBroadcast() returns (keys: seq<string>)
      ensures forall i, j :: 0 <= i < j < |keys| ==> keys[i] != keys[j]
      ensures forall key :: key in keys <==> key in tasks && Nonterminal(tasks[key])
    {
      keys := [];
      var rest := tasks.Keys;
      while rest != {}
        invariant rest <= tasks.Keys
        invariant forall i, j :: 0 <= i < j < |keys| ==> keys[i] != keys[j]
        invariant forall key :: key in keys <==> key in tasks && key !in rest && Nonterminal(tasks[key])
        decreases rest
      {
        var key :| key in rest;
        rest := rest - {key};
        if Nonterminal(tasks[key]) {
          keys := keys + [key];
        }
      }
    }

    method ListCascadeLeases() returns (ids: seq<string>)
      ensures forall id :: id in ids <==> LiveCascade(leases, id)
    {
      ids := [];
      var rest := leases.Keys;
      while rest != {}
        invariant rest <= leases.Keys
        invariant forall id :: id in ids <==> id !in rest && LiveCascade(leases, id)
        decreases rest
      {
        var id :| id in rest;
        rest := rest - {id};
        if LiveCascade(leases, id) {
          ids := ids + [id];
        }
      }
    }

    // The body of recover's first loop for one row; true means that no failure was recorded.
    method RecoverRow(key: string, authorised: bool) returns (ok: bool, faulted: bool)
      requires DatabaseInv(View()) && key in tasks && Nonterminal(tasks[key])
      modifies this
      ensures ok || faulted || Troubled(old(View()), key, authorised, None)
      ensures Advanced(old(View()), View(), key)
      ensures Judged(old(View()), View(), key, authorised, None, ok)
    {
      ghost var start := View();
      AdvancedRefl(start, key);
      hide Local, DatabaseInv, Commit, PlanUpdate, Advanced;
      var row := tasks[key];
      if row.summary.Undecodable? { return false, false; }
      var leaseId := row.summary.binding.audioLeaseId;
      LocalRefl(start, key, leaseId);
      LocalAdvances(start, View(), key, leaseId);
      if !row.summary.binding.deviceResult.NoResult? && !row.summary.binding.resultDelivered {
        var releaseFault: bool := *;
        if releaseFault { return false, true; }
        ReleaseLocal(start, key, leaseId);
        leases := TalkLease.Release(leases, leaseId, TalkLease.Failed);
        ghost var released := View();
        assert DatabaseInv(released) by { LocalInv(start, released, key, leaseId); }
        LocalAdvances(start, View(), key, leaseId);
        var at: int := *;
        var delivery, _ := DeliverPending(key, at, authorised, leaseId);
        LocalTrans(start, released, View(), key, leaseId);
        LocalAdvances(start, View(), key, leaseId);
        if !delivery.Done? { return true, false; }
      }
      ghost var before := View();
      assert DatabaseInv(before) by { LocalInv(start, before, key, leaseId); }
      LocalKeepsLease(start, before, key, leaseId);
      EndLocal(before, key, Aborted, leaseId);
      var fault: bool := *;
      var r := UpdateBroadcast(key, 0, Some(Aborted), fault);
      if !fault { LocalTrans(start, before, View(), key, leaseId); }
      LocalAdvances(start, View(), key, leaseId);
      return r.Done?, fault;
    }

    method RecoverTasks(authorised: string -> bool) returns (failures: nat, faults: nat)
      requires DatabaseInv(View())
      modifies this
      ensures Sound(old(View()), View()) && OthersUntouched(old(View()), View())
      ensures EveryRowJudged(old(View()), View(), authorised, None, failures == 0)
      ensures failures > 0 && faults == 0 ==> exists key :: Troubled(old(View()), key, authorised(key), None)
    {
      ghost var start := View();
      var keys := ListNonterminalBroadcast();
      WalkStarts(start, keys);
      assert AllJudged(start, start, keys, 0, authorised, None, true);
      hide DatabaseInv, Sound, Advanced, Walked, OthersUntouched, AllJudged, Judged, EveryRowJudged, Nonterminal, SameOwn, Troubled;
      failures, faults := 0, 0;
      for i := 0 to |keys|
        invariant Walked(start, View(), keys, i)
        invariant AllJudged(start, View(), keys, i, authorised, None, failures == 0)
        invariant failures > 0 && faults == 0 ==> exists key :: Troubled(start, key, authorised(key), None)
      {
        ghost var before := View();
        WalkFacts(start, before, keys, i);
        var ok, faulted := RecoverRow(keys[i], authorised(keys[i]));
        WalkSteps(start, before, View(), keys, i);
        WalkJudges(start, before, View(), keys, i, authorised, None, failures == 0, ok);
        if !ok { failures := failures + 1; }
        if faulted { faults := faults + 1; }
        if !ok && !faulted { TroubledFrom(start, before, keys[i], authorised(keys[i]), None); }
      }
      WalkEnds(start, View(), keys, authorised, None, failures == 0);
    }

    method RecoverLeases() returns (failures: nat)
      requires DatabaseInv(View())
      modifies this
      ensures Sound(old(View()), View()) && OthersUntouched(old(View()), View())
      ensures tasks == old(tasks) && OthersKept(old(leases), leases)
      ensures failures == 0 ==> forall id :: LiveCascade(leases, id) ==> !TalkLease.HasPrefix(id)
    {
      ghost var start := View();
      SoundReflexive(start);
      var ids := ListCascadeLeases();
      assert OthersUntouched(start, start) && Listed(leases, ids) && EndedUpTo(leases, ids, 0) && OthersKept(leases, leases);
      hide OthersKept, DatabaseInv, Sound, OthersUntouched, LiveCascade, TalkLease.HasPrefix, TalkLease.Release, Listed, EndedUpTo;
      failures := 0;
      for i := 0 to |ids|
        invariant Sound(start, View()) && OthersUntouched(start, View())
        invariant tasks == start.tasks && Listed(leases, ids) && OthersKept(start.leases, leases)
        invariant failures == 0 ==> EndedUpTo(leases, ids, i)
      {
        EndedNext(leases, ids, i);
        if TalkLease.HasPrefix(ids[i]) {
          var fault: bool := *;
          if fault {
            failures := failures + 1;
          } else {
            ReleaseAdvances(start, View(), ids[i]);
            ReleaseKeepsOthers(start.leases, leases, ids[i]);
            leases := TalkLease.Release(leases, ids[i], TalkLease.Failed);
          }
        }
      }
      EndedAll(leases, ids);
    }

    // Each row is validated once, when its turn comes; authorised(key) is that answer. Whatever happens, a row whose
    // result waits for delivery is not ended unless the result was delivered or authorisation is gone, what ends without
    // a waiting result is Aborted, and a row that had ended is not touched. If recovery reports no failure, every task
    // that is still open waits for the delivery of a recorded result, and no audio reservation of this runtime is live.
    // `faults` counts the answers of the environment that failed; a failure without any of them comes from a row that
    // cannot be decoded.
    method Recover(authorised: string -> bool) returns (failures: nat, faults: nat)
      requires DatabaseInv(View())
      modifies this
      ensures Sound(old(View()), View()) && OthersUntouched(old(View()), View())
      ensures forall key :: key in old(tasks) && old(tasks)[key].kind.Broadcast? && old(tasks)[key].state.Terminal() ==>
                tasks[key] == old(tasks)[key]
      ensures forall key :: key in old(tasks) && Nonterminal(old(tasks)[key]) && Pending(old(tasks)[key]) ==>
                key in tasks && WaitJudged(old(tasks)[key], tasks[key], authorised(key))
      ensures forall key :: key in old(tasks) && Nonterminal(old(tasks)[key]) && !Pending(old(tasks)[key]) ==>
                key in tasks && tasks[key].state in {old(tasks)[key].state, Aborted}
      ensures failures == 0 ==> forall key :: key in tasks && Nonterminal(tasks[key]) ==> Pending(tasks[key])
      ensures failures == 0 ==> forall id :: LiveCascade(leases, id) ==> !TalkLease.HasPrefix(id)
      ensures failures > 0 && faults == 0 ==>
                exists key :: key in old(tasks) && Nonterminal(old(tasks)[key]) && old(tasks)[key].summary.Undecodable?
    {
      ghost var start := View();
      SoundReflexive(start);
      hide DatabaseInv, DatabaseGrew;
      var listFault: bool := *;
      if listFault { return 1, 1; }
      failures, faults := RecoverTasks(authorised);
      ghost var before := View();
      RecoveredRows(start, before, authorised, failures == 0);
      hide EveryRowJudged, Pending, WaitJudged;
      listFault := *;
      if listFault { return failures + 1, faults + 1; }
      var more := RecoverLeases();
      SoundTrans(start, before, View());
      failures, faults := failures + more, faults + more;
    }

    // The body of sweep's loop for one row; true means that no failure was recorded.
    method SweepRow(key: string, now: int, authorised: bool) returns (ok: bool, faulted: bool)
      requires DatabaseInv(View()) && key in tasks && Nonterminal(tasks[key])
      modifies this
      ensures ok || faulted || Troubled(old(View()), key, authorised, Some(now))
      ensures Advanced(old(View()), View(), key)
      ensures Judged(old(View()), View(), key, authorised, Some(now), ok)
    {
      ghost var start := View();
      AdvancedRefl(start, key);
      JudgedSame(start, key, authorised, now, false);
      var row := tasks[key];
      hide Local, DatabaseInv, Commit, PlanUpdate, Advanced, Judged, Fresh, Healthy, Waiting, Ended, Attempted;
      if row.summary.Undecodable? { return false, false; }
      var binding := row.summary.binding;
      ghost var leaseId := binding.audioLeaseId;
      if !binding.deviceResult.NoResult? && !binding.resultDelivered {
        var delivery, broken := DeliverPending(key, now, authorised, leaseId);
        LocalAdvances(start, View(), key, leaseId);
        ok := delivery.Done? || delivery.Deferred?;
        JudgedDelivered(start, View(), key, authorised, now, leaseId, ok);
        return ok, broken;
      }
      var platformFault: bool := *;
      var leaseFault: bool := *;
      if platformFault || leaseFault { return false, true; }
      var expired := binding.audio.callId == "" && !(now < row.receivedAt + PULL_TIMEOUT);
      if !LiveCascade(leases, binding.audioLeaseId) || !(now < leases[binding.audioLeaseId].expiresAt) {
        expired := true;
      }
      ExpiredExactly(start, key, now, expired);
      if !authorised || expired {
        var end := if !authorised then Aborted else Failed;
        EndLocal(start, key, end, leaseId);
        LocalAdvances(start, Commit(start, key, PlanUpdate(Find(start, key), 0, Some(end))).0, key, leaseId);
        var fault: bool := *;
        var r := UpdateBroadcast(key, 0, Some(end), fault);
        if !fault { JudgedEnded(start, View(), key, authorised, now, r.Done?); }
        return r.Done?, fault;
      }
      JudgedSame(start, key, authorised, now, true);
      return true, false;
    }

    // Each row is validated once, when its turn comes; authorised(key) is that answer. An open row that is authorised,
    // has no waiting result, holds a live lease that expires after `now`, and was claimed by an audio INVITE or is
    // younger than thirty seconds is left alone with its lease; a row that the sweep ends without a waiting result is
    // Aborted exactly if it was not authorised, and Failed otherwise. If the sweep reports no failure, every task that
    // is still open was waiting for its result delivery when the sweep began, or is such a row, and every row that was
    // waiting was delivered, unless its retry clock allowed no attempt or it ended for want of authorisation. A failure
    // without a fault comes from a row that cannot be decoded or from an attempt to deliver a result.
    method Sweep(now: int, authorised: string -> bool) returns (failures: nat, faults: nat)
      requires DatabaseInv(View())
      modifies this
      ensures Sound(old(View()), View()) && OthersUntouched(old(View()), View())
      ensures forall key :: key in old(tasks) && old(tasks)[key].kind.Broadcast? && old(tasks)[key].state.Terminal() ==>
                tasks[key] == old(tasks)[key]
      ensures forall key :: Healthy(old(View()), key, now) && authorised(key) ==> SameOwn(old(View()), View(), key)
      ensures forall key :: key in old(tasks) && Nonterminal(old(tasks)[key]) && !Pending(old(tasks)[key]) ==>
                tasks[key].state in {old(tasks)[key].state, if authorised(key) then Failed else Aborted}
      ensures forall key :: key in old(tasks) && Nonterminal(old(tasks)[key]) && Pending(old(tasks)[key]) ==>
                WaitJudged(old(tasks)[key], tasks[key], authorised(key))
      ensures failures == 0 ==> forall key :: key in tasks && Nonterminal(tasks[key]) ==>
                (key in old(tasks) && Pending(old(tasks)[key])) || (authorised(key) && Fresh(leases, tasks[key], now))
      ensures failures == 0 ==> forall key :: key in old(tasks) && Nonterminal(old(tasks)[key]) && Pending(old(tasks)[key]) ==>
                key in tasks && Served(old(tasks)[key], tasks[key], authorised(key), now)
      ensures failures > 0 && faults == 0 ==> exists key :: Troubled(old(View()), key, authorised(key), Some(now))
    {
      ghost var start := View();
      SoundReflexive(start);
      hide DatabaseInv, DatabaseGrew;
      var listFault: bool := *;
      if listFault {
        NothingSwept(start, now);
        return 1, 1;
      }
      failures, faults := SweepTasks(now, authorised);
      SweptRows(start, View(), authorised, now, failures == 0);
    }

    method SweepTasks(now: int, authorised: string -> bool) returns (failures: nat, faults: nat)
      requires DatabaseInv(View())
      modifies this
      ensures Sound(old(View()), View()) && OthersUntouched(old(View()), View())
      ensures EveryRowJudged(old(View()), View(), authorised, Some(now), failures == 0)
      ensures failures > 0 && faults == 0 ==> exists key :: Troubled(old(View()), key, authorised(key), Some(now))
    {
      ghost var start := View();
      var keys := ListNonterminalBroadcast();
      WalkStarts(start, keys);
      assert AllJudged(start, start, keys, 0, authorised, Some(now), true);
      hide DatabaseInv, Sound, Advanced, Walked, OthersUntouched, AllJudged, Judged, EveryRowJudged, Nonterminal, SameOwn, Troubled;
      failures, faults := 0, 0;
      for i := 0 to |keys|
        invariant Walked(start, View(), keys, i)
        invariant AllJudged(start, View(), keys, i, authorised, Some(now), failures == 0)
        invariant failures > 0 && faults == 0 ==> exists key :: Troubled(start, key, authorised(key), Some(now))
      {
        ghost var before := View();
        WalkFacts(start, before, keys, i);
        var ok, faulted := SweepRow(keys[i], now, authorised(keys[i]));
        WalkSteps(start, before, View(), keys, i);
        WalkJudges(start, before, View(), keys, i, authorised, Some(now), failures == 0, ok);
        if !ok { failures := failures + 1; }
        if faulted { faults := faults + 1; }
        if !ok && !faulted { TroubledFrom(start, before, keys[i], authorised(keys[i]), Some(now)); }
      }
      WalkEnds(start, View(), keys, authorised, Some(now), failures == 0);
    }
  }
}
