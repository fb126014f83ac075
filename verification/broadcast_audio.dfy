// An audio INVITE is resolved from one read of the row and claimed in a later transaction.
// In between, any number of other writers may commit.
module BroadcastAudio {
  import opened Wrappers
  import opened BroadcastTasks
  import opened BroadcastGrowth
  import opened BroadcastRuns

  predicate HoldsPull(job: Job) {
    job.Pulled? || job.Claiming?
  }

  // The resolved binding agrees with the current row on everything but results and audio,
  // up to the local source that resolve filled in.
  ghost predicate PullCurrent(db: Database, job: Job) {
    HoldsPull(job) ==>
      && OwnsLease(db, job.key)
      && Stable(job.pulled) == Stable(Pull(db.tasks[job.key].summary.binding, job.localId))
  }

  ghost predicate SeenCurrent(db: Database, job: Job) {
    job.Claiming? && job.seen.Some? && job.seen.value.summary.Encoded? ==>
      PullCurrent(db, job) && Stable(job.seen.value.summary.binding) == Stable(db.tasks[job.key].summary.binding)
  }

  ghost predicate PullsCurrent(s: System) {
    forall id :: id in s.jobs ==> PullCurrent(s.db, s.jobs[id]) && SeenCurrent(s.db, s.jobs[id])
  }

  lemma PullKept(a: Database, b: Database, job: Job)
    requires DatabaseGrew(a, b) && PullCurrent(a, job) && SeenCurrent(a, job)
    ensures PullCurrent(b, job) && SeenCurrent(b, job)
  {
    if HoldsPull(job) {
      assert TaskGrew(a.tasks[job.key], b.tasks[job.key]);
      var was, cur := a.tasks[job.key].summary.binding, b.tasks[job.key].summary.binding;
      assert Stable(was).localSourceId == was.localSourceId && Stable(cur).localSourceId == cur.localSourceId;
      assert Stable(Pull(was, job.localId)) == Pull(Stable(was), job.localId);
      assert Stable(Pull(cur, job.localId)) == Pull(Stable(cur), job.localId);
    }
  }

  lemma NoPull(db: Database, job: Job)
    requires !HoldsPull(job)
    ensures PullCurrent(db, job) && SeenCurrent(db, job)
  {
  }

  // A new pull was resolved or re-read from the row just now.
  lemma PullSource(s: System, e: Event)
    requires EffectOf(s, e).fate.Become? && HoldsPull(EffectOf(s, e).fate.job)
    requires EffectOf(s, e).id in s.jobs ==> PullCurrent(s.db, s.jobs[EffectOf(s, e).id])
    ensures PullCurrent(s.db, EffectOf(s, e).fate.job) && SeenCurrent(s.db, EffectOf(s, e).fate.job)
  {
    hide Commit, CommitClaim, Transition, Insert, PlanUpdate, PlanRecord, PlanGrant, PlanFinish, PlanClaim, AcceptExisting, LeaseUsable;
  }

  lemma StepKeepsPulls(s: System, e: Event)
    requires PullsCurrent(s) && DatabaseGrew(s.db, Step(s, e).db)
    ensures PullsCurrent(Step(s, e))
  {
    hide DatabaseGrew, EffectOf, PullCurrent, SeenCurrent;
    var s', f := Step(s, e), EffectOf(s, e);
    forall id | id in s'.jobs
      ensures PullCurrent(s'.db, s'.jobs[id]) && SeenCurrent(s'.db, s'.jobs[id])
    {
      if !HoldsPull(s'.jobs[id]) {
        NoPull(s'.db, s'.jobs[id]);
      } else {
        if f.fate.Become? && f.id == id {
          PullSource(s, e);
        }
        PullKept(s.db, s'.db, s'.jobs[id]);
      }
    }
  }

  // Exactly when the resolved binding still passes cascadeBroadcastBindingStable, whatever
  // the other writers did: the row carries its own local source, or the platform had none.
  lemma StableExactly(s: System, id: nat)
    requires PullsCurrent(s) && id in s.jobs && s.jobs[id].Claiming?
    requires s.jobs[id].seen.Some? && s.jobs[id].seen.value.summary.Encoded?
    ensures var job := s.jobs[id];
            var live := job.seen.value.summary.binding;
            BindingStable(job.pulled, live) == (live.localSourceId != "" || job.localId == "")
  {
    var job := s.jobs[id];
    assert PullCurrent(s.db, job) && SeenCurrent(s.db, job);
    var cur, live := s.db.tasks[job.key].summary.binding, job.seen.value.summary.binding;
    assert Stable(cur).localSourceId == cur.localSourceId && Stable(live).localSourceId == live.localSourceId;
    assert Stable(Pull(cur, job.localId)) == Pull(Stable(cur), job.localId);
    assert Stable(job.pulled) == Pull(Stable(live), job.localId);
  }
}
