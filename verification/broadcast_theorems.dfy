// What holds over every run of the broadcast protocol: any number of goroutines, any
// interleaving, any clock readings, crashes anywhere.
module BroadcastTheorems {
  import opened Wrappers
  import opened BroadcastTasks
  import opened BroadcastGrowth
  import opened BroadcastRuns
  import opened BroadcastSafety
  import opened BroadcastDelivery
  import opened BroadcastAudio
  import opened BroadcastSerial
  import TalkLease

  ghost predicate Inv(s: System) {
    && DatabaseInv(s.db) && AllEndTerminal(s)
    && NotifyOnce(s) && NotifyTruth(s) && Answers(s)
    && ClockInv(s) && SendsWithinGrants(s) && DeliveryTruth(s)
    && PullsCurrent(s) && AllSeenExist(s)
  }

  lemma InitInv()
    ensures Inv(Init())
  {
  }

  lemma StepKeepsInv(s: System, e: Event)
    requires Inv(s)
    ensures Inv(Step(s, e)) && DatabaseGrew(s.db, Step(s, e).db)
  {
    StepKeepsDatabase(s, e);
    hide Step, DatabaseInv, AllEndTerminal, NotifyOnce, NotifyTruth, Answers, ClockInv, SendsWithinGrants, DeliveryTruth, PullsCurrent, AllSeenExist;
    assert s.db.tasks.Keys <= Step(s, e).db.tasks.Keys;
    hide DatabaseGrew;
    StepKeepsEnds(s, e);
    StepKeepsNotifyOnce(s, e);
    StepKeepsNotifyTruth(s, e);
    StepKeepsAnswers(s, e);
    StepKeepsClock(s, e);
    StepKeepsSends(s, e);
    StepKeepsDeliveryTruth(s, e);
    StepKeepsPulls(s, e);
    StepKeepsSeen(s, e);
  }

  lemma {:induction false} RunKeepsInv(s: System, events: seq<Event>)
    requires Inv(s)
    ensures Inv(Run(s, events))
    ensures DatabaseGrew(s.db, Run(s, events).db)
    decreases |events|
  {
    hide Inv, Step;
    if events == [] {
    } else {
      var next := Step(s, events[0]);
      StepKeepsInv(s, events[0]);
      RunKeepsInv(next, events[1..]);
      DatabaseGrewTrans(s.db, next.db, Run(next, events[1..]).db);
    }
  }

  lemma {:induction false} RunAppend(s: System, a: seq<Event>, b: seq<Event>)
    ensures Run(s, a + b) == Run(Run(s, a), b)
    decreases |a|
  {
    hide Step;
    if a == [] {
      assert a + b == b;
    } else {
      assert (a + b)[1..] == a[1..] + b;
      RunAppend(Step(s, a[0]), a[1..], b);
    }
  }

  lemma {:induction false} RunIsLogged(s: System, events: seq<Event>)
    requires Inv(s)
    ensures Run(s, events).db == Serial(s.db, Log(s, events)) && AllSucceed(s.db, Log(s, events))
    decreases |events|
  {
    if events != [] {
      var next := Step(s, events[0]);
      StepIsLogged(s, events[0]);
      StepKeepsInv(s, events[0]);
      hide Inv, Step, Committed, Apply, Succeeds;
      var ops, rest := Committed(s, events[0]), Log(next, events[1..]);
      RunIsLogged(next, events[1..]);
      if ops == [] {
        assert ops + rest == rest;
      } else {
        assert (ops + rest)[1..] == rest;
      }
    }
  }

  // Whatever the interleaving, the tables are those of the transactions that reported success, each executed as one
  // indivisible and successful operation in the order of the commits.
  lemma {:induction false} RunIsSerial(events: seq<Event>)
    ensures Run(Init(), events).db == Serial(Init().db, Log(Init(), events))
    ensures AllSucceed(Init().db, Log(Init(), events))
  {
    InitInv();
    RunIsLogged(Init(), events);
  }

  // No update is ever lost: whatever was written before stays, whoever writes later, and the
  // state only moves forward.
  lemma NoLostUpdate(events: seq<Event>, more: seq<Event>, key: string)
    requires key in Run(Init(), events).db.tasks
    ensures key in Run(Init(), events + more).db.tasks
    ensures TaskGrew(Run(Init(), events).db.tasks[key], Run(Init(), events + more).db.tasks[key])
  {
    InitInv();
    RunKeepsInv(Init(), events);
    RunKeepsInv(Run(Init(), events), more);
    RunAppend(Init(), events, more);
  }

  // A task that ended, or that the device refused, holds no live lease; and no channel is
  // ever held by two live leases.
  lemma EndedTaskHoldsNoLease(events: seq<Event>, key: string)
    requires OwnsLease(Run(Init(), events).db, key)
    ensures var db := Run(Init(), events).db;
            Over(db.tasks[key].state, db.tasks[key].summary.binding.deviceResult) ==>
              !TalkLease.Live(db.leases, db.tasks[key].summary.binding.audioLeaseId)
    ensures TalkLease.OneLivePerChannel(Run(Init(), events).db.leases)
  {
    InitInv();
    RunKeepsInv(Init(), events);
  }

  // However many copies of one MESSAGE arrive, the device gets at most one Notify, and a
  // stored or answered 200 means that it accepted it.
  lemma DeviceNotifiedOnce(events: seq<Event>, key: string)
    ensures NotifyCount(Run(Init(), events).wire, key) <= 1
    ensures StatusOf(Run(Init(), events).db, key) == 200 ==> Told(Run(Init(), events).wire, key)
  {
    InitInv();
    RunKeepsInv(Init(), events);
    assert NotifyOnce(Run(Init(), events));
  }

  lemma ForeignCopyRefused(events: seq<Event>, m: Message)
    requires m in Run(Init(), events).wire && m.Reply?
    requires HashOf(Run(Init(), events).db, m.key) != Some(m.hash)
    ensures m.status in {409, 486, 503}
  {
    InitInv();
    RunKeepsInv(Init(), events);
    assert AnswerSound(Run(Init(), events), m);
  }

  // Upstream sends never exceed the recorded attempts, all carry the one recorded result,
  // and a delivered result was accepted with a 2xx.
  lemma SendsAreGrantedAndTrue(events: seq<Event>, key: string)
    ensures SendCount(Run(Init(), events).wire, key) <= Attempts(Run(Init(), events).db, key)
    ensures forall m :: m in Run(Init(), events).wire && m.Upstream? && m.key == key
              ==> m.result == ResultOf(Run(Init(), events).db, key) && !m.result.NoResult?
    ensures Delivered(Run(Init(), events).db, key) ==> Accepted(Run(Init(), events).wire, key)
  {
    InitInv();
    RunKeepsInv(Init(), events);
    var s := Run(Init(), events);
    assert ClockOf(s, key);
    assert SendCount(s.wire, key) + |Holders(s.jobs, key)| <= |Grants(s, key)|;
    forall m | m in s.wire && m.Upstream? && m.key == key
      ensures m.result == ResultOf(s.db, key) && !m.result.NoResult?
    {
      assert SentTruth(s.db, m);
    }
  }

  // n grants of one task, made by any goroutines with any clocks, span at least the sum of
  // the capped exponential delays between them.
  lemma GrantsFollowRetryClock(events: seq<Event>, key: string)
    ensures var times := Grants(Run(Init(), events), key);
            && Spaced(times)
            && (times != [] ==> times[|times| - 1] - times[0] >= Span(|times|))
            && |times| == Attempts(Run(Init(), events).db, key)
  {
    InitInv();
    RunKeepsInv(Init(), events);
    assert ClockInv(Run(Init(), events));
    hide *;
    ClockSpans(Run(Init(), events), key);
  }

  predicate Wins(s: System, id: nat) {
    id in s.jobs && s.jobs[id].Granting? && Commit(s.db, s.jobs[id].key, PlanGrant(s.jobs[id].seen, s.jobs[id].at)).1.Done?
  }

  lemma WinnerMovesOn(s: System, id: nat)
    requires Wins(s, id)
    ensures s.jobs[id].seen.Some? && s.jobs[id].seen.value.summary.Encoded?
    ensures Attempts(s.db, s.jobs[id].key) == s.jobs[id].seen.value.summary.binding.resultAttempts
    ensures Attempts(Step(s, CommitGrant(id)).db, s.jobs[id].key) == Attempts(s.db, s.jobs[id].key) + 1
  {
    hide RetryDelay;
  }

  lemma AttemptsKept(a: Database, b: Database, key: string)
    requires DatabaseGrew(a, b)
    ensures Attempts(a, key) <= Attempts(b, key)
  {
    if key in a.tasks {
      assert TaskGrew(a.tasks[key], b.tasks[key]);
    }
  }

  lemma OneGrantFrom(s: System, a: nat, more: seq<Event>, b: nat)
    requires Inv(s) && Wins(s, a)
    requires var later := Run(Step(s, CommitGrant(a)), more);
             b in later.jobs && later.jobs[b].Granting? && later.jobs[b].key == s.jobs[a].key && later.jobs[b].seen == s.jobs[a].seen
    ensures !Wins(Run(Step(s, CommitGrant(a)), more), b)
  {
    var next := Step(s, CommitGrant(a));
    var later := Run(next, more);
    WinnerMovesOn(s, a);
    hide Inv, Step, Commit, PlanGrant, Attempts, DatabaseGrew;
    StepKeepsInv(s, CommitGrant(a));
    RunKeepsInv(next, more);
    AttemptsKept(next.db, later.db, s.jobs[a].key);
    if Wins(later, b) {
      WinnerMovesOn(later, b);
    }
  }

  // Of goroutines that read the same row, at most one gets the grant, however long the
  // others wait before they write.
  lemma RacersGetOneGrant(events: seq<Event>, a: nat, more: seq<Event>, b: nat)
    requires Wins(Run(Init(), events), a)
    requires var s := Run(Init(), events);
             var later := Run(Step(s, CommitGrant(a)), more);
             b in later.jobs && later.jobs[b].Granting? && later.jobs[b].key == s.jobs[a].key && later.jobs[b].seen == s.jobs[a].seen
    ensures !Wins(Run(Step(Run(Init(), events), CommitGrant(a)), more), b)
  {
    InitInv();
    RunKeepsInv(Init(), events);
    hide Inv, Wins, Step, Init;
    OneGrantFrom(Run(Init(), events), a, more, b);
  }

  function AudioOf(db: Database, key: string): AudioTransaction {
    if key in db.tasks && db.tasks[key].summary.Encoded? then db.tasks[key].summary.binding.audio else NO_AUDIO
  }

  predicate Claims(s: System, id: nat) {
    && id in s.jobs && s.jobs[id].Claiming?
    && CommitClaim(s.db, s.jobs[id].key,
                   PlanClaim(s.jobs[id].seen, s.jobs[id].pulled, s.jobs[id].audio, s.jobs[id].permitted)).1.Done?
  }

  lemma ClaimAgrees(s: System, id: nat)
    requires Claims(s, id) && AudioOf(s.db, s.jobs[id].key).callId != ""
    ensures s.jobs[id].audio == AudioOf(s.db, s.jobs[id].key)
  {
  }

  lemma ClaimWrites(s: System, id: nat)
    requires Claims(s, id)
    ensures AudioOf(Step(s, CommitAudio(id)).db, s.jobs[id].key) == s.jobs[id].audio
  {
  }

  lemma AudioKept(a: Database, b: Database, key: string)
    requires DatabaseGrew(a, b) && AudioOf(a, key).callId != ""
    ensures AudioOf(b, key) == AudioOf(a, key)
  {
    assert TaskGrew(a.tasks[key], b.tasks[key]);
  }

  lemma OneWinnerFrom(s: System, id: nat, more: seq<Event>, other: nat)
    requires Inv(s) && Claims(s, id) && s.jobs[id].audio.callId != ""
    ensures var later := Run(Step(s, CommitAudio(id)), more); var key := s.jobs[id].key;
            && AudioOf(later.db, key) == s.jobs[id].audio
            && (!ResultOf(s.db, key).NoResult? ==> ResultOf(later.db, key) == ResultOf(s.db, key))
            && (Claims(later, other) && later.jobs[other].key == key ==> later.jobs[other].audio == s.jobs[id].audio)
  {
    hide Inv, Step, CommitClaim, PlanClaim, AudioOf, ResultOf, DatabaseGrew;
    var key := s.jobs[id].key;
    var next := Step(s, CommitAudio(id));
    var later := Run(next, more);
    ClaimWrites(s, id);
    StepKeepsInv(s, CommitAudio(id));
    RunKeepsInv(next, more);
    AudioKept(next.db, later.db, key);
    if !ResultOf(s.db, key).NoResult? {
      ResultKept(s.db, next.db, key);
      ResultKept(next.db, later.db, key);
    }
    if Claims(later, other) && later.jobs[other].key == key {
      ClaimAgrees(later, other);
    }
  }

  // After a successful claim the row keeps that audio transaction and any device result for
  // ever, and every later successful claim is for the same transaction.
  lemma ClaimHasOneWinner(events: seq<Event>, id: nat, more: seq<Event>, other: nat)
    requires var s := Run(Init(), events); Claims(s, id) && s.jobs[id].audio.callId != ""
    ensures var s := Run(Init(), events);
            var later := Run(Step(s, CommitAudio(id)), more);
            var key := s.jobs[id].key;
            && AudioOf(later.db, key) == s.jobs[id].audio
            && (!ResultOf(s.db, key).NoResult? ==> ResultOf(later.db, key) == ResultOf(s.db, key))
            && (Claims(later, other) && later.jobs[other].key == key ==> later.jobs[other].audio == s.jobs[id].audio)
  {
    InitInv();
    RunKeepsInv(Init(), events);
    hide Inv, Step, Init, CommitClaim, PlanClaim, AudioOf, ResultOf;
    OneWinnerFrom(Run(Init(), events), id, more, other);
  }

  // The claim was permitted and read a row that accepts audio, carries its own local source and no other audio
  // transaction; since that read nobody changed the summary or ended the task.
  predicate Unobstructed(db: Database, job: Job)
    requires job.Claiming?
  {
    && job.permitted && job.seen.Some? && job.seen.value.state.AcceptsAudio() && job.seen.value.summary.Encoded?
    && (job.pulled.audio.callId == "" || job.pulled.audio == job.audio)
    && (var live := job.seen.value.summary.binding;
        && (live.localSourceId != "" || job.localId == "")
        && (live.audio.callId == "" || live.audio == job.audio))
    && job.key in db.tasks && db.tasks[job.key].summary == job.seen.value.summary && db.tasks[job.key].state.AcceptsAudio()
  }

  // Exactly when a claim commits. Concurrent writers matter only if they commit between the
  // claim's own read and its UPDATE; what they wrote since the INVITE was resolved does not.
  lemma ClaimSucceedsExactly(events: seq<Event>, id: nat)
    requires id in Run(Init(), events).jobs && Run(Init(), events).jobs[id].Claiming?
    ensures var s := Run(Init(), events); Claims(s, id) == Unobstructed(s.db, s.jobs[id])
  {
    InitInv();
    RunKeepsInv(Init(), events);
    var s := Run(Init(), events);
    ClaimCommits(s, id);
  }

  lemma ClaimCommits(s: System, id: nat)
    requires Inv(s) && id in s.jobs && s.jobs[id].Claiming?
    ensures Claims(s, id) == Unobstructed(s.db, s.jobs[id])
  {
    var job := s.jobs[id];
    assert PullCurrent(s.db, job) && SeenCurrent(s.db, job);
    if job.seen.Some? && job.seen.value.summary.Encoded? {
      StableExactly(s, id);
    }
    var cur := s.db.tasks[job.key].summary.binding;
    assert Stable(job.pulled).audioLeaseId == job.pulled.audioLeaseId;
    assert Stable(Pull(cur, job.localId)).audioLeaseId == cur.audioLeaseId;
  }
}
