// What the runs of AlarmOutbox guarantee for the dialogs of one alarm.
module AlarmDelivery {
  import opened Wrappers
  import opened AlarmOutbox

  // ---- a delivery is completed only when every dialog has accepted a NOTIFY ----

  ghost predicate Told(wire: seq<Sending>, target: nat) {
    exists m :: m in wire && m.target == target && m.accepted
  }

  ghost predicate TrueList(wire: seq<Sending>, targets: seq<Target>) {
    forall k :: 0 <= k < |targets| && targets[k].state.Delivered? ==> Told(wire, k)
  }

  predicate DeliveredUpTo(targets: seq<Target>, n: nat) {
    n <= |targets| && forall k :: 0 <= k < n ==> targets[k].state.Delivered?
  }

  // What a worker that has seen neither a refusal nor an error knows.
  predicate Progress(w: Worker) {
    match w
    case Selected(_, _, _) => true
    case Working(_, targets, i, retry, revoked) => i <= |targets| && targets != [] && (!retry && !revoked ==> DeliveredUpTo(targets, i))
    case Saving(_, targets, i, retry, revoked, outcome) =>
      i < |targets| && targets[i].state.Unsent? && !outcome.Unsent?
      && (!retry && !revoked ==> DeliveredUpTo(targets, i) && outcome.Delivered?)
    case Closing(_, targets, verdict) => verdict.Finish? ==> targets != [] && DeliveredUpTo(targets, |targets|)
  }

  ghost predicate TrueWorker(wire: seq<Sending>, w: Worker, size: nat) {
    && |w.targets| == size && TrueList(wire, w.targets) && Progress(w)
    && (w.Saving? && w.outcome.Delivered? ==> Told(wire, w.i))
  }

  ghost predicate Truthful(s: System) {
    && TrueList(s.wire, s.row.targets)
    && (forall id :: id in s.workers ==> TrueWorker(s.wire, s.workers[id], |s.row.targets|))
    && (s.row.state.Sent? ==> s.row.targets != [] && forall k :: 0 <= k < |s.row.targets| ==> Told(s.wire, k))
  }

  // Each local turn of a worker keeps what the worker knows true; a NOTIFY that was
  // accepted must be on the wire.
  lemma TurnKeepsTrue(wire: seq<Sending>, w: Worker, reply: Reply, ok: bool)
    requires TrueWorker(wire, w, |w.targets|)
    ensures w.Selected? ==> TrueWorker(wire, Begin(w.attempts + 1, w.targets), |w.targets|)
    ensures w.Working? && !Waiting(w) ==> TrueWorker(wire, Skip(w), |w.targets|)
    ensures Waiting(w) && (reply.Accepted? ==> Told(wire, w.i)) ==> TrueWorker(wire, Answered(w, reply), |w.targets|)
    ensures w.Saving? ==> TrueList(wire, Result(w)) && TrueWorker(wire, Saved(w, ok), |w.targets|)
  {
    hide Told;
  }

  lemma TruthGrows(s: System, e: Event)
    requires Truthful(s)
    ensures forall k :: Told(s.wire, k) ==> Told(Step(s, e).wire, k)
    ensures TrueList(Step(s, e).wire, s.row.targets)
    ensures forall id :: id in s.workers ==> TrueWorker(Step(s, e).wire, s.workers[id], |s.row.targets|)
  {
    hide EffectOf;
  }

  lemma TruthSource(s: System, e: Event)
    requires Truthful(s)
    ensures var f := EffectOf(s, e); var wire := Step(s, e).wire;
            (f.row.targets == s.row.targets || (|f.row.targets| == |s.row.targets| && TrueList(wire, f.row.targets)))
    ensures var f := EffectOf(s, e); f.fate.Become? ==> TrueWorker(Step(s, e).wire, f.fate.worker, |s.row.targets|)
    ensures var f := EffectOf(s, e);
            f.row.state.Sent? && !s.row.state.Sent? ==> forall k :: 0 <= k < |f.row.targets| ==> Told(s.wire, k)
    ensures var f := EffectOf(s, e); f.row.state.Sent? ==> s.row.targets != []
  {
    TruthGrows(s, e);
    var f, wire := EffectOf(s, e), Step(s, e).wire;
    if f.sent.Some? {
      assert f.sent.value in wire;
    }
    if f.id in s.workers {
      var w := s.workers[f.id];
      TurnKeepsTrue(wire, w, if e.Answer? then e.reply else Transient, true);
      TurnKeepsTrue(wire, w, Transient, false);
      hide Begin, Skip, Answered, Saved, Result, TrueList, Told;
    }
  }

  lemma StepKeepsTruthful(s: System, e: Event)
    requires Truthful(s)
    ensures Truthful(Step(s, e))
  {
    TruthGrows(s, e);
    TruthSource(s, e);
    hide EffectOf, TrueWorker;
  }

  // ---- without a stale claim, a recorded status is final ----

  predicate Settled(t: Target) {
    !t.state.Unsent?
  }

  // Every status recorded in `before` is still the same in `after`.
  ghost predicate Keeps(before: seq<Target>, after: seq<Target>) {
    |before| == |after| &&
    forall k :: 0 <= k < |before| ==> after[k].id == before[k].id && (Settled(before[k]) ==> after[k] == before[k])
  }

  // A worker that still needs its list: to send, or to complete the delivery.
  predicate Bound(w: Worker) {
    Busy(w) || (w.Closing? && w.verdict.Finish?)
  }

  // The newest claim works on the row's own list, and a completed row has every target recorded sent.
  ghost predicate Current(s: System) {
    && (forall id :: id in s.workers && Bound(s.workers[id]) && s.workers[id].attempts == s.row.attempts ==>
          s.workers[id].targets == s.row.targets)
    && (s.row.state.Sent? ==> DeliveredUpTo(s.row.targets, |s.row.targets|))
  }

  // A checkpoint is the only write of the list, and only the owner's goes through.
  lemma ListSource(s: System, e: Event)
    requires Fenced(s)
    ensures var f := EffectOf(s, e);
            || (f.row.targets == s.row.targets
                && (f.row.state.Sent? && !s.row.state.Sent? ==>
                      && f.id in s.workers && Bound(s.workers[f.id]) && s.workers[f.id].Closing?
                      && s.workers[f.id].attempts == s.row.attempts))
            || (f.row.state.Leased? && f.id in s.workers && s.workers[f.id].Saving? && s.workers[f.id].attempts == s.row.attempts == f.row.attempts
                && f.row.targets == Result(s.workers[f.id]))
  {
  }

  lemma BoundSource(s: System, e: Event)
    ensures var f := EffectOf(s, e);
            f.fate.Become? && Bound(f.fate.worker) ==>
              && f.id in s.workers
              && (if s.workers[f.id].Selected? then
                    && Busy(f.fate.worker) && f.fate.worker.attempts == f.row.attempts && f.row.targets == s.row.targets
                    && (!f.stale ==> f.fate.worker.targets == s.row.targets)
                  else
                    && Busy(s.workers[f.id]) && f.fate.worker.attempts == s.workers[f.id].attempts
                    && (|| (f.fate.worker.targets == s.workers[f.id].targets && f.row.targets == s.row.targets)
                        || (s.workers[f.id].Saving? && Busy(f.fate.worker)
                            && f.fate.worker.targets == Result(s.workers[f.id]) == f.row.targets)))
  {
  }

  lemma StepKeepsCurrent(s: System, e: Event)
    requires Fenced(s) && Truthful(s) && Current(s) && !Step(s, e).stale
    ensures Current(Step(s, e))
  {
    assert forall id :: id in s.workers ==> Progress(s.workers[id]);
    WorkerSource(s, e);
    ListSource(s, e);
    BoundSource(s, e);
    hide EffectOf, TrueList, Result;
  }

  // Claims numbered `n` and later respect everything recorded in `list`.
  ghost predicate Honours(s: System, n: nat, list: seq<Target>) {
    && n <= s.row.attempts && Keeps(list, s.row.targets)
    && (forall id :: id in s.workers && Busy(s.workers[id]) && s.workers[id].attempts >= n ==> Keeps(list, s.workers[id].targets))
  }

  lemma ResultKeeps(list: seq<Target>, w: Worker)
    requires w.Saving? && Progress(w) && Keeps(list, w.targets)
    ensures Keeps(list, Result(w))
  {
  }

  lemma StepKeepsHonours(s: System, e: Event, n: nat, list: seq<Target>)
    requires Fenced(s) && Truthful(s) && Honours(s, n, list) && !Step(s, e).stale
    ensures Honours(Step(s, e), n, list)
    ensures var f := EffectOf(s, e);
            f.sent.Some? && f.sent.value.attempt >= n ==> f.sent.value.target < |list| && !Settled(list[f.sent.value.target])
  {
    WorkerSource(s, e);
    SendSource(s, e);
    ListSource(s, e);
    BoundSource(s, e);
    var f := EffectOf(s, e);
    if f.id in s.workers && s.workers[f.id].Saving? && s.workers[f.id].attempts >= n {
      assert TrueWorker(s.wire, s.workers[f.id], |s.row.targets|);
      ResultKeeps(list, s.workers[f.id]);
    }
    hide EffectOf, Truthful, TrueWorker, Result;
  }

  // ---- checkpoints that read the clock when they run leave no stale claim ----

  ghost predicate Fresh(s: System) {
    forall id :: id in s.workers && s.workers[id].Selected? && s.workers[id].attempts == s.row.attempts ==>
      s.workers[id].targets == s.row.targets && (s.row.state.Leased? ==> s.row.leaseUntil <= s.clock)
  }

  predicate Punctual(s: System, e: Event) {
    e.Save? ==> e.now >= s.clock
  }

  lemma LeaseSource(s: System, e: Event)
    requires Fenced(s)
    ensures var f := EffectOf(s, e);
            && (f.row.attempts == s.row.attempts && f.row.state.Leased? ==> s.row.state.Leased? && f.row.leaseUntil == s.row.leaseUntil)
            && (f.fate.Become? && f.fate.worker.Selected? ==>
                  && f.row == s.row && f.fate.worker.targets == s.row.targets
                  && (s.row.state.Leased? ==> s.row.leaseUntil <= s.clock))
            && (f.row.targets != s.row.targets ==> e.Save? && s.row.state.Leased? && e.now < s.row.leaseUntil)
            && (f.stale ==> f.id in s.workers && s.workers[f.id].Selected? && s.workers[f.id].attempts == s.row.attempts
                            && s.workers[f.id].targets != s.row.targets)
  {
  }

  lemma StepKeepsFresh(s: System, e: Event)
    requires Fenced(s) && Fresh(s) && Punctual(s, e)
    ensures Fresh(Step(s, e)) && Step(s, e).stale == s.stale
  {
    LeaseSource(s, e);
    WorkerSource(s, e);
    hide EffectOf;
  }
}
