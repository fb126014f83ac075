// At a claim: what the claimed worker may do wrong later, exactly by how its selected list differs from the row's.
module AlarmExact {
  import opened Wrappers
  import opened AlarmOutbox
  import opened AlarmDelivery
  import opened AlarmTheorems

  // The selected list has a target unsettled that the row has settled.
  predicate Missed(selected: seq<Target>, recorded: seq<Target>, k: nat) {
    k < |selected| && k < |recorded| && !Settled(selected[k]) && Settled(recorded[k])
  }

  ghost predicate SendsAgain(t: System, id: nat, from: nat, recorded: seq<Target>) {
    exists x :: from <= x < |t.wire| && t.wire[x].worker == id
                && t.wire[x].target < |recorded| && Settled(recorded[t.wire[x].target])
  }

  // From its claim on, worker `id` sends only to targets that were unsettled in its list.
  ghost predicate Faithful(t: System, id: nat, list: seq<Target>, from: nat) {
    && id < t.next && from <= |t.wire|
    && (id in t.workers ==>
          && Claimed(t.workers[id])
          && (Busy(t.workers[id]) ==>
                && |t.workers[id].targets| == |list|
                && forall k :: Cursor(t.workers[id]) <= k < |list| ==> t.workers[id].targets[k] == list[k]))
    && (forall x :: from <= x < |t.wire| && t.wire[x].worker == id ==>
          t.wire[x].target < |list| && !Settled(list[t.wire[x].target]))
  }

  lemma StepKeepsFaithful(t: System, e: Event, id: nat, list: seq<Target>, from: nat)
    requires Faithful(t, id, list, from)
    ensures Faithful(Step(t, e), id, list, from)
  {
    SendSource(t, e);
    WorkerSource(t, e);
    BusySource(t, e);
    BoundSource(t, e);
    hide EffectOf;
  }

  lemma {:induction false} RunKeepsFaithful(t: System, events: seq<Event>, id: nat, list: seq<Target>, from: nat)
    requires Faithful(t, id, list, from)
    ensures Faithful(Run(t, events), id, list, from)
    decreases |events|
  {
    if events != [] {
      StepKeepsFaithful(t, events[0], id, list, from);
      hide Faithful, Step;
      RunKeepsFaithful(Step(t, events[0]), events[1..], id, list, from);
    }
  }

  // ---- steering a worker: every target before `k` is skipped or put off ----

  function ReachAt(id: nat, w: Worker, k: nat): seq<Event>
    requires w.Working? && w.i <= k <= |w.targets|
    decreases k - w.i
  {
    if w.i == k then []
    else if Waiting(w) then [Answer(id, false, Transient)] + ReachAt(id, Answered(w, Transient), k)
    else [Proceed(id)] + ReachAt(id, Skip(w), k)
  }

  // The worker at target `k`, with nothing else changed.
  function At(w: Worker, k: nat): Worker
    requires w.Working?
  {
    Working(w.attempts, w.targets, k, w.retry, w.revoked)
  }

  lemma {:induction false} ReachesAt(s: System, id: nat, k: nat)
    requires id in s.workers && s.workers[id].Working? && s.workers[id].i <= k <= |s.workers[id].targets|
    ensures var w := s.workers[id];
            var t := Run(s, ReachAt(id, w, k));
            && t.row == s.row && t.clock == s.clock && t.wire == s.wire && id in t.workers
            && t.workers[id].Working? && t.workers[id].attempts == w.attempts && t.workers[id].targets == w.targets
            && t.workers[id].i == k
            && ((forall j :: w.i <= j < k ==> w.targets[j].state.Delivered?) ==> t.workers[id] == At(w, k))
    decreases k - s.workers[id].i
  {
    var w := s.workers[id];
    if w.i < k {
      var events := ReachAt(id, w, k);
      RunUnfolds(s, events);
      var t := Step(s, events[0]);
      assert t.workers[id] == if Waiting(w) then Answered(w, Transient) else Skip(w);
      assert t.wire == s.wire && t.row == s.row && t.clock == s.clock;
      ReachesAt(t, id, k);
      assert events[1..] == ReachAt(id, t.workers[id], k);
    }
  }

  lemma {:induction false} RunAppend(s: System, a: seq<Event>, b: seq<Event>)
    ensures Run(s, a + b) == Run(Run(s, a), b)
    decreases |a|
  {
    hide Step;
    if a == [] {
      assert a + b == b;
    } else {
      assert (a + b)[1..] == a[1..] + b;
      RunAppend(Step(s, a[0]), a[1..], b);
    }
  }

  // The UPDATE of worker `id` will win the row, and its claim may still send.
  ghost predicate AboutToClaim(s: System, id: nat) {
    && id in s.workers && s.workers[id].Selected?
    && s.workers[id].attempts == s.row.attempts < MAX_ATTEMPTS && Claimable(s.row, s.workers[id].now)
  }

  lemma ClaimedState(s: System, id: nat)
    requires Inv(s) && AboutToClaim(s, id)
    ensures var t := Step(s, ClaimRow(id)); var w := s.workers[id];
            && t.wire == s.wire && t.row == Claim(s.row, s.row.attempts, id, w.now) && t.row.targets == s.row.targets
            && id in t.workers && t.workers[id] == Begin(s.row.attempts + 1, w.targets)
            && |w.targets| == |s.row.targets| && id < t.next && t.clock == s.clock
            && Owned(t.row, id, w.now)
  {
  }

  // The turns that bring worker `id` to target `k` with the clock at `now` or later.
  function Approach(id: nat, w: Worker, k: nat, now: int): seq<Event>
    requires w.Working? && w.i <= k <= |w.targets|
  {
    [Tick(now)] + ReachAt(id, w, k)
  }

  lemma Approaches(t: System, id: nat, k: nat, now: int, e: Event) returns (u: System)
    requires id in t.workers && t.workers[id].Working? && t.workers[id].i <= k <= |t.workers[id].targets|
    ensures u == Run(t, Approach(id, t.workers[id], k, now)) && Run(t, Approach(id, t.workers[id], k, now) + [e]) == Step(u, e)
    ensures var w := t.workers[id];
            && u.row == t.row && u.clock >= now && u.wire == t.wire && id in u.workers
            && u.workers[id].Working? && u.workers[id].attempts == w.attempts && u.workers[id].targets == w.targets
            && u.workers[id].i == k
            && ((forall j :: w.i <= j < k ==> w.targets[j].state.Delivered?) ==> u.workers[id] == At(w, k))
  {
    var events := Approach(id, t.workers[id], k, now);
    var t1 := Step(t, Tick(now));
    assert t1.workers == t.workers && t1.row == t.row && t1.wire == t.wire && t1.clock >= now;
    ReachesAt(t1, id, k);
    hide Step;
    assert events[1..] == ReachAt(id, t.workers[id], k);
    RunUnfolds(t, events);
    u := Run(t, events);
    RunAppend(t, events, [e]);
    RunUnfolds(u, [e]);
  }

  lemma ClaimOf(ids: seq<string>, start: int, before: seq<Event>, id: nat) returns (s: System, t: System)
    requires AboutToClaim(Run(Init(ids, start), before), id)
    ensures s == Run(Init(ids, start), before) && t == Step(s, ClaimRow(id)) && Inv(s) && Inv(t)
    ensures t.wire == s.wire && t.row.targets == s.row.targets && id in t.workers && id < t.next
    ensures t.workers[id] == Begin(s.row.attempts + 1, s.workers[id].targets) && |s.workers[id].targets| == |s.row.targets|
    ensures Owned(t.row, id, s.workers[id].now)
  {
    InitInv(ids, start);
    RunKeepsInv(Init(ids, start), before);
    s := Run(Init(ids, start), before);
    hide Run, Init;
    t := Step(s, ClaimRow(id));
    ClaimedState(s, id);
    StepKeepsInv(s, ClaimRow(id));
  }

  // ---- sending again ----

  lemma ResendNeeds(t: System, after: seq<Event>, id: nat, list: seq<Target>, from: nat, recorded: seq<Target>)
    requires Faithful(t, id, list, from) && |list| == |recorded| && SendsAgain(Run(t, after), id, from, recorded)
    ensures exists k :: Missed(list, recorded, k)
  {
    RunKeepsFaithful(t, after, id, list, from);
    var wire := Run(t, after).wire;
    hide Run;
    var x :| from <= x < |wire| && wire[x].worker == id && wire[x].target < |recorded| && Settled(recorded[wire[x].target]);
    assert Missed(list, recorded, wire[x].target);
  }

  lemma Resends(t: System, id: nat, k: nat, recorded: seq<Target>)
    requires id in t.workers && t.workers[id].Working? && t.workers[id].i <= k && Missed(t.workers[id].targets, recorded, k)
    ensures exists after :: SendsAgain(Run(t, after), id, |t.wire|, recorded)
  {
    hide Run, Step;
    var e := Answer(id, true, Accepted);
    var u := Approaches(t, id, k, 0, e);
    AnswerSends(u, id);
    var after := Approach(id, t.workers[id], k, 0) + [e];
    assert Run(t, after).wire[|t.wire|].target == k;
    assert SendsAgain(Run(t, after), id, |t.wire|, recorded);
  }

  // A claimed worker can send again to a dialog that is settled in the row if and only if its list has some such
  // dialog unsettled.
  lemma {:induction false} ResendExactly(ids: seq<string>, start: int, before: seq<Event>, id: nat)
    requires AboutToClaim(Run(Init(ids, start), before), id)
    ensures var s := Run(Init(ids, start), before);
            (exists after :: SendsAgain(Run(Step(s, ClaimRow(id)), after), id, |s.wire|, s.row.targets))
            <==> exists k :: Missed(s.workers[id].targets, s.row.targets, k)
  {
    var s, t := ClaimOf(ids, start, before, id);
    var list, row := s.workers[id].targets, s.row.targets;
    hide Inv, Run, Init, Step, AboutToClaim, SendsAgain;
    forall after | SendsAgain(Run(t, after), id, |s.wire|, row)
      ensures exists k :: Missed(list, row, k)
    {
      ResendNeeds(t, after, id, list, |s.wire|, row);
    }
    if k :| Missed(list, row, k) {
      Resends(t, id, k, row);
    }
  }

  lemma AnswerSends(u: System, id: nat)
    requires id in u.workers && Waiting(u.workers[id])
    ensures Step(u, Answer(id, true, Accepted)).wire == u.wire + [Sending(id, u.workers[id].i, u.workers[id].attempts, true)]
  {
  }

  // ---- changing a recorded status ----

  // The next checkpoint of `id` changes a status of the row that was settled in `recorded`.
  ghost predicate Rewrites(u: System, id: nat, now: int, fault: Fault, recorded: seq<Target>) {
    var v := Step(u, Save(id, now, fault));
    exists k :: 0 <= k < |recorded| && k < |u.row.targets| && k < |v.row.targets| && Settled(recorded[k])
                && u.row.targets[k] == recorded[k] && v.row.targets[k] != recorded[k]
  }

  // The worker's list keeps what it selected, except at targets it selected unsettled.
  ghost predicate Tracks(t: System, id: nat, list: seq<Target>) {
    && id < t.next
    && (id in t.workers ==>
          && Claimed(t.workers[id])
          && (Busy(t.workers[id]) ==>
                && |t.workers[id].targets| == |list|
                && forall k :: 0 <= k < |list| ==> t.workers[id].targets[k] == list[k] || !Settled(list[k])))
  }

  lemma StepKeepsTracks(t: System, e: Event, id: nat, list: seq<Target>)
    requires Tracks(t, id, list) && Truthful(t)
    ensures Tracks(Step(t, e), id, list)
  {
    WorkerSource(t, e);
    BoundSource(t, e);
    assert id in t.workers ==> Progress(t.workers[id]);
    hide EffectOf, Truthful, TrueList;
  }

  lemma {:induction false} RunKeepsTracks(t: System, events: seq<Event>, id: nat, list: seq<Target>)
    requires Tracks(t, id, list) && Inv(t)
    ensures Tracks(Run(t, events), id, list) && Inv(Run(t, events))
    decreases |events|
  {
    if events != [] {
      StepKeepsInv(t, events[0]);
      StepKeepsTracks(t, events[0], id, list);
      hide Tracks, Step, Inv;
      RunKeepsTracks(Step(t, events[0]), events[1..], id, list);
    }
  }

  predicate SomeUnsettled(list: seq<Target>) {
    exists j :: 0 <= j < |list| && !Settled(list[j])
  }

  predicate DiffersAtSettled(list: seq<Target>, recorded: seq<Target>) {
    exists k :: 0 <= k < |recorded| && k < |list| && Settled(recorded[k]) && list[k] != recorded[k]
  }

  lemma RewriteNeeds(u: System, id: nat, now: int, fault: Fault, list: seq<Target>, recorded: seq<Target>)
    requires Inv(u) && Tracks(u, id, list) && |list| == |recorded| && Rewrites(u, id, now, fault, recorded)
    ensures SomeUnsettled(list) && DiffersAtSettled(list, recorded)
  {
    var w := u.workers[id];
    assert Progress(w);
    var v := Step(u, Save(id, now, fault));
    assert v.row.targets == Result(w);
    hide Inv, Step;
    assert !Settled(list[w.i]);
    var k :| 0 <= k < |recorded| && k < |u.row.targets| && k < |v.row.targets| && Settled(recorded[k])
             && u.row.targets[k] == recorded[k] && v.row.targets[k] != recorded[k];
    assert list[k] != recorded[k];
  }

  lemma SavesOver(u: System, id: nat, reply: Reply, now: int, recorded: seq<Target>, k: nat)
    requires id in u.workers && Waiting(u.workers[id]) && now <= u.clock && Owned(u.row, id, now) && !reply.Transient?
    requires u.row.targets == recorded && |recorded| == |u.workers[id].targets| && k < |recorded| && Settled(recorded[k])
    requires k != u.workers[id].i ==> u.workers[id].targets[k] != recorded[k]
    requires k == u.workers[id].i ==> recorded[k].state != (if reply.Accepted? then Delivered else Revoked)
    ensures Rewrites(Step(u, Answer(id, true, reply)), id, now, NoFault, recorded)
  {
    var w := u.workers[id];
    var v := Step(u, Answer(id, true, reply));
    assert v.row == u.row && v.clock == u.clock && v.workers[id] == Answered(w, reply);
    var x := Step(v, Save(id, now, NoFault));
    assert x.row.targets == Result(v.workers[id]);
    assert x.row.targets[k] != recorded[k];
  }

  lemma StatusChanges(t: System, id: nat, now: int)
    requires id in t.workers && t.workers[id].Working? && t.workers[id].i == 0 && Owned(t.row, id, now)
    requires |t.workers[id].targets| == |t.row.targets|
    requires SomeUnsettled(t.workers[id].targets) && DiffersAtSettled(t.workers[id].targets, t.row.targets)
    ensures exists after :: Rewrites(Run(t, after), id, now, NoFault, t.row.targets)
  {
    hide Run, Step, Rewrites, SomeUnsettled, DiffersAtSettled;
    var row := t.row.targets;
    var j, k := FindBoth(t.workers[id].targets, row);
    var reply := if row[j].state.Delivered? then Rejected else Accepted;
    var u := Approaches(t, id, j, now, Answer(id, true, reply));
    SavesOver(u, id, reply, now, row, k);
    assert Rewrites(Run(t, Approach(id, t.workers[id], j, now) + [Answer(id, true, reply)]), id, now, NoFault, row);
  }

  // A claimed worker can change a status that is settled in the row if and only if its list has some unsettled
  // target and differs from the row at some settled one.
  lemma {:induction false} StatusChangesExactly(ids: seq<string>, start: int, before: seq<Event>, id: nat)
    requires AboutToClaim(Run(Init(ids, start), before), id)
    ensures var s := Run(Init(ids, start), before);
            (exists after, now, fault :: Rewrites(Run(Step(s, ClaimRow(id)), after), id, now, fault, s.row.targets))
            <==> SomeUnsettled(s.workers[id].targets) && DiffersAtSettled(s.workers[id].targets, s.row.targets)
  {
    var s, t := ClaimOf(ids, start, before, id);
    var list, row := s.workers[id].targets, s.row.targets;
    hide Inv, Run, Init, Step, AboutToClaim, Rewrites, DiffersAtSettled;
    forall after, now, fault | Rewrites(Run(t, after), id, now, fault, row)
      ensures SomeUnsettled(list) && DiffersAtSettled(list, row)
    {
      RunKeepsTracks(t, after, id, list);
      RewriteNeeds(Run(t, after), id, now, fault, list, row);
    }
    if SomeUnsettled(list) && DiffersAtSettled(list, row) {
      StatusChanges(t, id, s.workers[id].now);
    }
  }

  lemma FindBoth(list: seq<Target>, recorded: seq<Target>) returns (j: nat, k: nat)
    requires SomeUnsettled(list) && DiffersAtSettled(list, recorded)
    ensures j < |list| && !Settled(list[j]) && k < |list| && k < |recorded| && Settled(recorded[k]) && list[k] != recorded[k]
  {
    j :| 0 <= j < |list| && !Settled(list[j]);
    k :| 0 <= k < |recorded| && k < |list| && Settled(recorded[k]) && list[k] != recorded[k];
  }

  // ---- completing with a target not recorded sent ----

  predicate AllDelivered(targets: seq<Target>) {
    DeliveredUpTo(targets, |targets|)
  }

  // Closing now, worker `id` completes a row that does not record every target as sent.
  ghost predicate CompletesUnrecorded(u: System, id: nat, now: int) {
    var v := Step(u, Close(id, now, false));
    !u.row.state.Sent? && v.row.state.Sent? && !AllDelivered(v.row.targets)
  }

  // While it owns the row, the worker either has its selected list over the row's old one, or has written its own.
  ghost predicate Attached(t: System, id: nat, list: seq<Target>, recorded: seq<Target>) {
    && id < t.next
    && (id in t.workers ==>
          && Claimed(t.workers[id])
          && (Bound(t.workers[id]) && t.row.owner == Some(id) ==>
                || (t.workers[id].targets == list && t.row.targets == recorded)
                || t.row.targets == t.workers[id].targets))
  }

  lemma StepKeepsAttached(t: System, e: Event, id: nat, list: seq<Target>, recorded: seq<Target>)
    requires Attached(t, id, list, recorded) && Fenced(t)
    ensures Attached(Step(t, e), id, list, recorded)
  {
    WorkerSource(t, e);
    BoundSource(t, e);
    ListSource(t, e);
    hide EffectOf;
  }

  lemma {:induction false} RunKeepsAttached(t: System, events: seq<Event>, id: nat, list: seq<Target>, recorded: seq<Target>)
    requires Attached(t, id, list, recorded) && Inv(t)
    ensures Attached(Run(t, events), id, list, recorded) && Inv(Run(t, events))
    decreases |events|
  {
    if events != [] {
      StepKeepsInv(t, events[0]);
      StepKeepsAttached(t, events[0], id, list, recorded);
      hide Attached, Step, Inv;
      RunKeepsAttached(Step(t, events[0]), events[1..], id, list, recorded);
    }
  }

  lemma CompletionNeeds(u: System, id: nat, now: int, list: seq<Target>, recorded: seq<Target>)
    requires Inv(u) && Attached(u, id, list, recorded) && CompletesUnrecorded(u, id, now)
    ensures list != [] && AllDelivered(list) && !AllDelivered(recorded)
  {
    var w := u.workers[id];
    assert Progress(w);
    assert w.Closing? && w.verdict.Finish? && u.row.owner == Some(id);
    assert Step(u, Close(id, now, false)).row.targets == u.row.targets;
  }

  lemma Completes(u: System, id: nat, now: int)
    requires id in u.workers && u.workers[id].Working? && u.workers[id].i == |u.workers[id].targets|
    requires !u.workers[id].retry && !u.workers[id].revoked && now <= u.clock && Owned(u.row, id, now)
    requires !AllDelivered(u.row.targets)
    ensures CompletesUnrecorded(Step(u, Proceed(id)), id, now)
  {
    var v := Step(u, Proceed(id));
    assert v.row == u.row && v.clock == u.clock && v.workers[id] == Skip(u.workers[id]);
    assert Step(v, Close(id, now, false)).row == Complete(v.row, id, now);
  }

  lemma CompletesOver(t: System, id: nat, now: int)
    requires id in t.workers && t.workers[id].Working? && Owned(t.row, id, now) && t.workers[id].i == 0
    requires !t.workers[id].retry && !t.workers[id].revoked && AllDelivered(t.workers[id].targets) && !AllDelivered(t.row.targets)
    ensures exists after :: CompletesUnrecorded(Run(t, after), id, now)
  {
    hide Run, Step, CompletesUnrecorded;
    var n := |t.workers[id].targets|;
    var u := Approaches(t, id, n, now, Proceed(id));
    Completes(u, id, now);
    assert CompletesUnrecorded(Run(t, Approach(id, t.workers[id], n, now) + [Proceed(id)]), id, now);
  }

  // A claimed worker can complete the row with a target not recorded sent if and only if its own list is non-empty
  // and all sent while the row's is not.
  lemma {:induction false} CompletesUnrecordedExactly(ids: seq<string>, start: int, before: seq<Event>, id: nat)
    requires AboutToClaim(Run(Init(ids, start), before), id)
    ensures var s := Run(Init(ids, start), before);
            (exists after, now :: CompletesUnrecorded(Run(Step(s, ClaimRow(id)), after), id, now))
            <==> s.workers[id].targets != [] && AllDelivered(s.workers[id].targets) && !AllDelivered(s.row.targets)
  {
    var s, t := ClaimOf(ids, start, before, id);
    var list, row := s.workers[id].targets, s.row.targets;
    hide Inv, Run, Init, Step, AboutToClaim, CompletesUnrecorded, AllDelivered;
    forall after, now | CompletesUnrecorded(Run(t, after), id, now)
      ensures list != [] && AllDelivered(list) && !AllDelivered(row)
    {
      RunKeepsAttached(t, after, id, list, row);
      CompletionNeeds(Run(t, after), id, now, list, row);
    }
    if list != [] && AllDelivered(list) && !AllDelivered(row) {
      CompletesOver(t, id, s.workers[id].now);
    }
  }
}
