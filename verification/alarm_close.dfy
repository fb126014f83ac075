// What becomes of an alarm when a delivery is closed, told from the answers, refusals and lost checkpoints that the
// claim met rather than from the worker's own verdict.
module AlarmClose {
  import opened Wrappers
  import opened AlarmOutbox
  import opened AlarmDelivery
  import opened AlarmTheorems
  import opened AlarmStore

  // `trouble`: something may go better next time. `refused`: a dialog or the whole binding is revoked.
  datatype Notes = Notes(trouble: bool, refused: bool)

  // What one event adds to the notes of worker `id`.
  function Noted(s: System, e: Event, id: nat, n: Notes): Notes {
    if id !in s.workers then n
    else
      var w := s.workers[id];
      match e
      case Answer(i, sent, reply) =>
        if i != id || !w.Working? || w.i >= |w.targets| || w.targets[w.i].state != Unsent then n
        else if reply.Transient? then n.(trouble := true)
        else if reply.Rejected? then n.(refused := true)
        else n
      case Proceed(i) =>
        if i == id && w.Working? && w.i < |w.targets| && w.targets[w.i].state == Revoked then n.(refused := true) else n
      case Save(i, now, fault) =>
        if i == id && w.Saving? && now <= s.clock && !(fault.NoFault? && Owned(s.row, id, now)) then n.(trouble := true) else n
      case Refuse(i, revoked) =>
        if i != id || !w.Working? || w.i != 0 then n else if revoked then n.(refused := true) else n.(trouble := true)
      case _ => n
  }

  // The notes of worker `id` over the run from `s`.
  function NotesOf(s: System, events: seq<Event>, id: nat): Notes
    decreases |events|
  {
    if events == [] then Notes(false, false)
    else
      var n := |events| - 1;
      Noted(Run(s, events[..n]), events[n], id, NotesOf(s, events[..n], id))
  }

  // ---- the worker's verdict says what its notes say ----

  ghost predicate Matches(w: Worker, n: Notes) {
    match w
    case Selected(_, _, _) => n == Notes(false, false)
    case Working(attempts, targets, i, retry, revoked) =>
      1 <= attempts <= 8 && targets != [] && retry == n.trouble && revoked == n.refused && (i == 0 ==> n == Notes(false, false))
    case Saving(attempts, targets, _, retry, revoked, _) =>
      1 <= attempts <= 8 && targets != [] && retry == n.trouble && revoked == n.refused
    case Closing(attempts, targets, verdict) =>
      && 1 <= attempts
      && (verdict.RetryLater? <==> attempts > 8 || n.trouble)
      && (verdict.GiveUp? <==> attempts <= 8 && !n.trouble && (n.refused || targets == []))
  }

  ghost predicate AllMatch(s: System, notes: map<nat, Notes>) {
    && s.workers.Keys <= notes.Keys
    && forall id :: id in s.workers ==> Matches(s.workers[id], notes[id])
  }

  lemma OneMatches(s: System, e: Event, n: Notes, w: Worker)
    requires EffectOf(s, e).fate == Become(w) && EffectOf(s, e).id in s.workers && s.next !in s.workers
    requires TrueWorker(s.wire, s.workers[EffectOf(s, e).id], |s.row.targets|)
    requires Matches(s.workers[EffectOf(s, e).id], n)
    ensures Matches(w, Noted(s, e, EffectOf(s, e).id, n))
  {
    hide TrueList, Told;
    match e
    case ClaimRow(id) =>
    case Refuse(id, revoked) =>
    case Proceed(id) =>
      assert s.workers[id].Working? && EffectOf(s, e).id == id;
    case Answer(id, sent, reply) =>
      assert Waiting(s.workers[id]) && EffectOf(s, e).id == id;
    case Save(id, now, fault) =>
      assert s.workers[id].Saving? && EffectOf(s, e).id == id;
    case _ =>
  }

  lemma NewMatches(s: System, e: Event, w: Worker)
    requires EffectOf(s, e).fate == Become(w) && EffectOf(s, e).id !in s.workers
    ensures Matches(w, Notes(false, false))
  {
  }

  lemma OthersKeepNotes(s: System, e: Event, id: nat, n: Notes)
    requires id in s.workers && !(EffectOf(s, e).fate.Become? && EffectOf(s, e).id == id) && Matches(s.workers[id], n)
    requires id in Step(s, e).workers
    ensures Step(s, e).workers[id] == s.workers[id] && Noted(s, e, id, n) == n
  {
  }

  lemma StepMatches(s: System, e: Event, id: nat, n: Notes)
    requires Inv(s) && id in Step(s, e).workers
    requires if id in s.workers then Matches(s.workers[id], n) else n == Notes(false, false)
    ensures Matches(Step(s, e).workers[id], Noted(s, e, id, n))
  {
    var f := EffectOf(s, e);
    if f.fate.Become? && f.id == id {
      IdsAreOld(s, s.next);
      if id in s.workers {
        OneMatches(s, e, n, f.fate.worker);
      } else {
        NewMatches(s, e, f.fate.worker);
      }
    } else {
      OthersKeepNotes(s, e, id, n);
    }
    hide EffectOf, Inv, Matches;
  }

  // A worker that does not exist yet has met nothing.
  lemma AbsentKeepsNotes(s: System, e: Event, id: nat, n: Notes)
    requires id !in s.workers
    ensures Noted(s, e, id, n) == n
  {
  }

  lemma {:induction false} RunSnoc(s: System, events: seq<Event>, e: Event)
    ensures Run(s, events + [e]) == Step(Run(s, events), e)
    decreases |events|
  {
    hide Step;
    if events == [] {
      assert [] + [e] == [e] && [e][1..] == [];
    } else {
      assert (events + [e])[1..] == events[1..] + [e];
      RunSnoc(Step(s, events[0]), events[1..], e);
    }
  }

  // Numbers of workers are handed out in order, and a worker that ended does not come back.
  ghost predicate Trails(s: System, events: seq<Event>, id: nat) {
    var u := Run(s, events);
    && (id in u.workers ==> Matches(u.workers[id], NotesOf(s, events, id)))
    && (id >= u.next ==> NotesOf(s, events, id) == Notes(false, false))
  }

  lemma WorkerIsNewest(s: System, e: Event, id: nat)
    requires Fenced(s) && id in Step(s, e).workers && id !in s.workers
    ensures id == s.next && Step(s, e).next == s.next + 1
  {
    WorkerSource(s, e);
    assert EffectOf(s, e).fate.Become? && EffectOf(s, e).id == id;
  }

  lemma NextGrows(s: System, e: Event)
    ensures s.next <= Step(s, e).next
  {
    hide EffectOf;
  }

  lemma {:induction false} RunTrails(ids: seq<string>, start: int, events: seq<Event>, id: nat)
    ensures Inv(Run(Init(ids, start), events)) && Trails(Init(ids, start), events, id)
    decreases |events|
  {
    var s := Init(ids, start);
    InitInv(ids, start);
    RunKeepsInv(s, events);
    if events == [] {
      assert Run(s, events) == s && s.workers == map[];
    } else {
      var n := |events| - 1;
      var front, e := events[..n], events[n];
      RunTrails(ids, start, front, id);
      assert events == front + [e];
      RunSnoc(s, front, e);
      var u := Run(s, front);
      NextGrows(u, e);
      if id !in u.workers {
        AbsentKeepsNotes(u, e, id, NotesOf(s, front, id));
      }
      if id >= u.next {
        IdsAreOld(u, id);
      }
      if id in Step(u, e).workers {
        if id !in u.workers {
          FencedPart(u);
          WorkerIsNewest(u, e, id);
        }
        StepMatches(u, e, id, NotesOf(s, front, id));
      }
      hide Run, Step, Init, Inv, Matches, Noted;
    }
  }

  lemma FencedPart(s: System)
    requires Inv(s)
    ensures Fenced(s)
  {
  }

  lemma IdsAreOld(s: System, id: nat)
    requires Inv(s) && id >= s.next
    ensures id !in s.workers
  {
  }

  // ---- the theorem ----

  // Worker `e.id`, the current owner, closes its delivery and the statement takes effect.
  predicate OwnerCloses(s: System, e: Event) {
    && e.Close? && !e.lost && e.now <= s.clock && e.id in s.workers && s.workers[e.id].Closing?
    && s.row.state.Leased? && s.row.owner == Some(e.id) && e.now < s.row.leaseUntil
  }

  // No other step decides a row.
  lemma OnlyClosesDecide(s: System, e: Event)
    requires !OwnerCloses(s, e)
    ensures var row := Step(s, e).row; row.state == s.row.state || (row.state.Leased? && row.attempts == s.row.attempts + 1)
  {
  }

  lemma OwnerDecides(s: System, e: Event, n: Notes)
    requires Inv(s) && OwnerCloses(s, e) && Matches(s.workers[e.id], n)
    ensures var row := Step(s, e).row; var attempts := s.row.attempts;
            && row.targets == s.row.targets && row.attempts == attempts && row.owner.None?
            && (row.state.Sent? <==> attempts <= 8 && !n.trouble && !n.refused && s.row.targets != [])
            && (row.state.Pending? <==> n.trouble && attempts < 8)
            && (row.state.Failed? <==> attempts > 8 || (n.trouble && attempts == 8) || (!n.trouble && (n.refused || s.row.targets == [])))
            && (row.state.Pending? ==> row.nextAttemptAt == e.now + 1_000_000_000 * DELAYS[attempts])
  {
    assert s.workers[e.id].attempts == s.row.attempts && |s.workers[e.id].targets| == |s.row.targets|;
    if s.row.attempts < 8 {
      BackoffTable(s.row.attempts);
    }
    hide Inv, Backoff;
  }

  // A row is decided exactly when the current owner closes its delivery. Then it is completed if the claim met neither
  // trouble nor a refusal; it is queued again, after the doubled delay, if it met trouble and this was not the eighth
  // attempt; and it fails otherwise.
  lemma {:induction false} ClosesExactly(ids: seq<string>, start: int, events: seq<Event>, e: Event)
    ensures var s := Run(Init(ids, start), events);
            var row, attempts := Step(s, e).row, s.row.attempts;
            if OwnerCloses(s, e) then
              var n := NotesOf(Init(ids, start), events, e.id);
              && row.targets == s.row.targets && row.attempts == attempts && row.owner.None?
              && (row.state.Sent? <==> attempts <= 8 && !n.trouble && !n.refused && s.row.targets != [])
              && (row.state.Pending? <==> n.trouble && attempts < 8)
              && (row.state.Failed? <==> attempts > 8 || (n.trouble && attempts == 8) || (!n.trouble && (n.refused || s.row.targets == [])))
              && (row.state.Pending? ==> row.nextAttemptAt == e.now + 1_000_000_000 * DELAYS[attempts])
            else row.state == s.row.state || (row.state.Leased? && row.attempts == attempts + 1)
  {
    var s := Run(Init(ids, start), events);
    hide Inv, NotesOf, Init, Run, Step;
    if OwnerCloses(s, e) {
      RunTrails(ids, start, events, e.id);
      assert Matches(s.workers[e.id], NotesOf(Init(ids, start), events, e.id));
      OwnerDecides(s, e, NotesOf(Init(ids, start), events, e.id));
    } else {
      OnlyClosesDecide(s, e);
    }
  }

  // A worker that dies loses what it knew, and nothing that it wrote or sent.
  lemma CrashLosesTheWorker(s: System, id: nat)
    ensures var t := Step(s, Die(id)); t == s.(workers := s.workers - {id})
  {
  }
}
