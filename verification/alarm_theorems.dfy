// The guarantees of alarm delivery, over every run of any number of workers.
module AlarmTheorems {
  import opened Wrappers
  import opened AlarmOutbox
  import opened AlarmDelivery

  ghost predicate Inv(s: System) {
    Fenced(s) && Unspent(s) && SaidOnce(s) && Truthful(s) && (!s.stale ==> Current(s))
  }

  lemma InitInv(ids: seq<string>, start: int)
    ensures Inv(Init(ids, start)) && Fresh(Init(ids, start))
  {
  }

  lemma StepKeepsInv(s: System, e: Event)
    requires Inv(s)
    ensures Inv(Step(s, e)) && s.wire <= Step(s, e).wire && (s.stale ==> Step(s, e).stale)
  {
    StepKeepsFenced(s, e);
    StepKeepsUnspent(s, e);
    StepKeepsSaidOnce(s, e);
    StepKeepsTruthful(s, e);
    if !Step(s, e).stale {
      StepKeepsCurrent(s, e);
    }
    hide EffectOf, Fenced, Unspent, SaidOnce, Truthful, Current;
  }

  lemma {:induction false} RunKeepsInv(s: System, events: seq<Event>)
    requires Inv(s)
    ensures Inv(Run(s, events)) && s.wire <= Run(s, events).wire && (s.stale ==> Run(s, events).stale)
    decreases |events|
  {
    hide Inv, Step;
    if events != [] {
      StepKeepsInv(s, events[0]);
      RunKeepsInv(Step(s, events[0]), events[1..]);
    }
  }

  // ---- a NOTIFY to one dialog at most once per claim, and at most eight times in all ----

  function SendsTo(wire: seq<Sending>, target: nat): nat {
    if wire == [] then 0
    else SendsTo(wire[..|wire| - 1], target) + (if wire[|wire| - 1].target == target then 1 else 0)
  }

  ghost function AttemptsTo(wire: seq<Sending>, target: nat): set<nat> {
    set x | 0 <= x < |wire| && wire[x].target == target :: wire[x].attempt
  }

  lemma {:induction false} NumbersUpTo(a: set<nat>, n: nat)
    requires forall x :: x in a ==> 1 <= x <= n
    ensures |a| <= n
  {
    if n == 0 {
      assert a == {};
    } else {
      NumbersUpTo(a - {n}, n - 1);
    }
  }

  ghost predicate OnceEach(wire: seq<Sending>) {
    forall x, y :: 0 <= x < y < |wire| && wire[x].target == wire[y].target ==> wire[x].attempt != wire[y].attempt
  }

  lemma AttemptsOfLonger(wire: seq<Sending>, target: nat)
    requires wire != []
    ensures var n := |wire| - 1;
            AttemptsTo(wire, target) == AttemptsTo(wire[..n], target) + (if wire[n].target == target then {wire[n].attempt} else {})
  {
    var n := |wire| - 1;
    forall x | 0 <= x < n ensures wire[x] == wire[..n][x] {}
  }

  lemma LastAttemptIsNew(wire: seq<Sending>, target: nat)
    requires wire != [] && OnceEach(wire) && wire[|wire| - 1].target == target
    ensures wire[|wire| - 1].attempt !in AttemptsTo(wire[..|wire| - 1], target)
  {
    var n := |wire| - 1;
    forall x | 0 <= x < n ensures wire[..n][x] == wire[x] {}
  }

  lemma {:induction false} SendsAreAttempts(wire: seq<Sending>, target: nat)
    requires OnceEach(wire)
    ensures SendsTo(wire, target) == |AttemptsTo(wire, target)|
  {
    if wire != [] {
      var n := |wire| - 1;
      assert OnceEach(wire[..n]);
      SendsAreAttempts(wire[..n], target);
      AttemptsOfLonger(wire, target);
      if wire[n].target == target {
        LastAttemptIsNew(wire, target);
      }
      hide AttemptsTo, OnceEach;
    }
  }

  lemma {:induction false} AtMostEightSends(ids: seq<string>, start: int, events: seq<Event>, target: nat)
    ensures SendsTo(Run(Init(ids, start), events).wire, target) <= MAX_ATTEMPTS
  {
    InitInv(ids, start);
    RunKeepsInv(Init(ids, start), events);
    hide Init, Run, Step, Fenced, Unspent, Truthful, Current;
    var wire := Run(Init(ids, start), events).wire;
    SendsAreAttempts(wire, target);
    NumbersUpTo(AttemptsTo(wire, target), MAX_ATTEMPTS);
  }

  // ---- completion ----

  // Lost leases and stale claims included: a completed alarm was accepted on every dialog.
  lemma {:induction false} CompletedWasAccepted(ids: seq<string>, start: int, events: seq<Event>, k: nat)
    requires Run(Init(ids, start), events).row.state.Sent? && k < |ids|
    ensures Told(Run(Init(ids, start), events).wire, k)
  {
    InitInv(ids, start);
    RunKeepsInv(Init(ids, start), events);
    RunKeepsSize(Init(ids, start), events);
  }

  lemma {:induction false} RunKeepsSize(s: System, events: seq<Event>)
    requires Inv(s)
    ensures |Run(s, events).row.targets| == |s.row.targets|
    decreases |events|
  {
    if events != [] {
      StepKeepsInv(s, events[0]);
      TruthSource(s, events[0]);
      RunKeepsSize(Step(s, events[0]), events[1..]);
    }
  }

  lemma {:induction false} CompletedIsRecorded(ids: seq<string>, start: int, events: seq<Event>)
    ensures var t := Run(Init(ids, start), events);
            t.row.state.Sent? && !t.stale ==> t.row.targets != [] && DeliveredUpTo(t.row.targets, |t.row.targets|)
  {
    InitInv(ids, start);
    RunKeepsInv(Init(ids, start), events);
  }

  // ---- recorded statuses are final, and no later claim sends to them again ----

  ghost predicate NoLaterSend(wire: seq<Sending>, from: nat, attempt: nat, list: seq<Target>) {
    forall x :: from <= x < |wire| && wire[x].target < |list| && Settled(list[wire[x].target]) ==> wire[x].attempt < attempt
  }

  lemma {:induction false} RunHonours(s: System, events: seq<Event>, n: nat, list: seq<Target>)
    requires Inv(s) && Honours(s, n, list) && !Run(s, events).stale
    ensures Honours(Run(s, events), n, list)
    ensures NoLaterSend(Run(s, events).wire, |s.wire|, n, list)
    decreases |events|
  {
    if events != [] {
      var t, rest := Step(s, events[0]), events[1..];
      StepKeepsInv(s, events[0]);
      RunKeepsInv(t, rest);
      StepKeepsHonours(s, events[0], n, list);
      RunHonours(t, rest, n, list);
      hide EffectOf, Inv, Honours;
      assert t.wire <= Run(t, rest).wire;
    }
  }

  lemma {:induction false} RecordedStatusIsFinal(ids: seq<string>, start: int, before: seq<Event>, after: seq<Event>)
    ensures var s := Run(Init(ids, start), before);
            var t := Run(s, after);
            !t.stale ==> Keeps(s.row.targets, t.row.targets) && NoLaterSend(t.wire, |s.wire|, s.row.attempts, s.row.targets)
  {
    InitInv(ids, start);
    RunKeepsInv(Init(ids, start), before);
    var s := Run(Init(ids, start), before);
    RunKeepsInv(s, after);
    if !Run(s, after).stale {
      RunHonours(s, after, s.row.attempts, s.row.targets);
    }
  }

  // ---- an alarm that was completed or given up stays so ----

  predicate Ended(row: Row) {
    row.state.Sent? || row.state.Failed?
  }

  lemma EndedRowSource(s: System, e: Event)
    requires Ended(s.row)
    ensures EffectOf(s, e).row == s.row
  {
  }

  lemma {:induction false} EndedIsFinal(s: System, events: seq<Event>)
    requires Ended(s.row)
    ensures Run(s, events).row == s.row
    decreases |events|
  {
    if events != [] {
      EndedRowSource(s, events[0]);
      hide EffectOf;
      EndedIsFinal(Step(s, events[0]), events[1..]);
    }
  }

  // ---- when claims are never stale ----

  predicate AllPunctual(s: System, events: seq<Event>)
    decreases |events|
  {
    events == [] || (Punctual(s, events[0]) && AllPunctual(Step(s, events[0]), events[1..]))
  }

  lemma {:induction false} RunStaysFresh(s: System, events: seq<Event>)
    requires Inv(s) && Fresh(s) && AllPunctual(s, events)
    ensures Run(s, events).stale == s.stale
    decreases |events|
  {
    if events != [] {
      StepKeepsInv(s, events[0]);
      StepKeepsFresh(s, events[0]);
      hide Inv, Fresh, Step;
      RunStaysFresh(Step(s, events[0]), events[1..]);
    }
  }

  // Checkpoints that take effect at the clock reading they carry exclude stale claims.
  lemma {:induction false} PunctualCheckpointsPreventStaleClaims(ids: seq<string>, start: int, events: seq<Event>)
    requires AllPunctual(Init(ids, start), events)
    ensures !Run(Init(ids, start), events).stale
  {
    InitInv(ids, start);
    RunStaysFresh(Init(ids, start), events);
  }

  lemma RunUnfolds(s: System, events: seq<Event>)
    requires events != []
    ensures Run(s, events) == Run(Step(s, events[0]), events[1..])
    ensures |events| == 1 ==> Run(s, events) == Step(s, events[0])
  {
  }
}
