// Ordering and run-once guarantees of the shutdown generations, over every interleaving.
module ShutdownTheorems {
  import opened Wrappers
  import opened ShutdownGenerations

  // ---- one run ----

  ghost predicate RunOk(r: Run, quiesces: seq<Quiesce>) {
    && (r.server.None? ==> r.quiesce.None?)
    && (r.server.Some? ==> r.quiesce.Some? && r.quiesce.value < |quiesces| && quiesces[r.quiesce.value].server == r.server.value)
    && (r.server.Some? && !r.phase.Quiescing? ==> quiesces[r.quiesce.value].done)
    && (r.process <==> r.control.Some?)
    && (r.control.Some? ==>
          && (r.control.value.Stopping? ==> Succeeded(r))
          && (r.control.value.ControlDone? ==> Over(r) && (r.control.value.stopped <==> Succeeded(r))))
    && (r.finalized ==> r.process && Over(r) && r.control.value.ControlDone?)
  }

  ghost predicate RunsOk(s: State) {
    forall k :: 0 <= k < |s.runs| ==> RunOk(s.runs[k], s.quiesces)
  }

  // ---- the whole state ----

  ghost predicate Indexed(s: State) {
    && ActiveIn(s) && (s.quiescing.Some? ==> s.quiescing.value < |s.quiesces|)
    && (s.server.Some? ==> s.server.value < s.nextServer)
    && (s.reloader.Joined? ==> s.reloader.run < |s.runs|)
  }

  // Every run but the active one is over, succeeded and belongs to a reload.
  ghost predicate OneRun(s: State)
    requires Indexed(s)
  {
    && (forall k :: 0 <= k < |s.runs| && s.active != Some(k) ==> Succeeded(s.runs[k]) && !s.runs[k].process && !s.runs[k].finalized)
    && (forall k :: 0 <= k < |s.runs| && s.runs[k].process ==> s.stopping)
    && s.finalizations == (if s.active.Some? && s.runs[s.active.value].finalized then 1 else 0)
  }

  // The current quiesce state drains the current server, or the captured one after the pointers are cleared.
  ghost predicate QuiescesCurrent(s: State)
    requires Indexed(s)
  {
    && (s.quiescing.Some? && s.server.Some? ==> s.quiesces[s.quiescing.value].server == s.server.value)
    && (s.quiescing.Some? && s.server.None? ==> s.stopping)
  }

  // A server is captured by at most one run, and by none while it is current and no run is active.
  ghost predicate Captured(s: State) {
    && (forall k :: 0 <= k < |s.runs| && s.runs[k].server.Some? ==>
          s.runs[k].server.value < s.nextServer && (s.server == s.runs[k].server ==> s.active == Some(k)))
    && (forall i, j :: 0 <= i < j < |s.runs| && s.runs[i].server.Some? ==> s.runs[i].server != s.runs[j].server)
  }

  // A joined reload whose run is no longer active was overtaken by a stop, which left no pointers behind.
  ghost predicate ReloaderOk(s: State)
    requires Indexed(s)
  {
    && (s.reloader.Joined? && s.active != Some(s.reloader.run) ==>
          && s.stopping && s.server.None? && s.quiescing.None?
          && (s.active.Some? ==> s.runs[s.active.value].server.None?))
    && (s.reloader.Cleared? && !s.stopping ==> s.active.None?)
  }

  ghost predicate Inv(s: State) {
    Indexed(s) && RunsOk(s) && OneRun(s) && QuiescesCurrent(s) && Captured(s) && ReloaderOk(s)
  }

  // ---- the building blocks of a step ----

  lemma ReplaceRun(s: State, k: nat, r: Run)
    requires Inv(s) && k < |s.runs| && RunOk(r, s.quiesces)
    requires r.server == s.runs[k].server && r.finalized == s.runs[k].finalized
    requires s.active != Some(k) ==> Succeeded(r) && !r.process
    requires r.process ==> s.stopping
    ensures Inv(s.(runs := s.runs[k := r]))
  {
    hide RunOk;
  }

  lemma ReplaceQuiesce(s: State, q: nat, z: Quiesce)
    requires Inv(s) && q < |s.quiesces| && z.server == s.quiesces[q].server && (s.quiesces[q].done ==> z.done)
    ensures Inv(s.(quiesces := s.quiesces[q := z]))
  {
    var t := s.(quiesces := s.quiesces[q := z]);
    forall k | 0 <= k < |s.runs| ensures RunOk(s.runs[k], t.quiesces) {
      assert RunOk(s.runs[k], s.quiesces);
    }
    hide RunOk;
  }

  lemma OpenQuiesce(s: State, z: Quiesce)
    requires Inv(s) && s.quiescing.None? && (s.server.None? ==> s.stopping) && (s.server.Some? ==> s.server == Some(z.server))
    requires s.server.Some? || (s.active.Some? && s.runs[s.active.value].server.Some?)
    ensures Inv(s.(quiesces := s.quiesces + [z], quiescing := Some(|s.quiesces|)))
  {
    var t := s.(quiesces := s.quiesces + [z], quiescing := Some(|s.quiesces|));
    forall k | 0 <= k < |s.runs| ensures RunOk(s.runs[k], t.quiesces) {
      assert RunOk(s.runs[k], s.quiesces);
    }
    hide RunOk;
  }

  lemma StopStopping(s: State)
    requires Inv(s)
    ensures Inv(s.(stopping := true))
  {
  }

  lemma DropActive(s: State)
    requires Inv(s) && s.active.Some? && Succeeded(s.runs[s.active.value]) && !s.runs[s.active.value].process
    requires s.stopping || !s.reloader.Joined?
    ensures Inv(Clear(s).(active := None))
  {
    hide RunOk;
    assert RunOk(s.runs[s.active.value], s.quiesces);
    assert !s.runs[s.active.value].finalized by {
      NotFinalized(s, s.active.value);
    }
  }

  lemma NotFinalized(s: State, k: nat)
    requires Inv(s) && k < |s.runs| && !s.runs[k].process
    ensures !s.runs[k].finalized
  {
    assert RunOk(s.runs[k], s.quiesces);
  }

  lemma AddRun(s: State, process: bool)
    requires Inv(s) && s.active.None? && (process ==> s.stopping)
    requires process || s.reloader.Idle?
    ensures Inv(NewRun(s, process))
  {
    if s.server.Some? && s.quiescing.None? {
      var z := Quiesce(s.server.value, false, false, false);
      OpenQuiesce(s, z);
      AppendRun(s.(quiesces := s.quiesces + [z], quiescing := Some(|s.quiesces|)), process);
    } else {
      AppendRun(s, process);
    }
  }

  // A new run for the current generation, whose drain exists if there is a server.
  predicate Fresh(s: State, r: Run) {
    && r.server == s.server && r.phase.Quiescing? && !r.finalized && (r.process <==> r.control == Some(Pending)) && (r.control.Some? ==> r.process)
    && r.quiesce == (if s.server.None? then None else s.quiescing)
  }

  function Append(s: State, r: Run): State {
    s.(runs := s.runs + [r], active := Some(|s.runs|))
  }

  lemma AppendRunsOk(s: State, r: Run)
    requires Indexed(s) && RunsOk(s) && QuiescesCurrent(s) && Fresh(s, r) && (s.server.Some? ==> s.quiescing.Some?)
    ensures Indexed(Append(s, r)) && RunsOk(Append(s, r)) && QuiescesCurrent(Append(s, r))
  {
    assert RunOk(r, s.quiesces);
    hide RunOk;
  }

  lemma AppendOneRun(s: State, r: Run)
    requires Inv(s) && s.active.None? && Fresh(s, r) && (r.process ==> s.stopping) && Indexed(Append(s, r))
    ensures OneRun(Append(s, r)) && Captured(Append(s, r))
  {
    hide RunsOk, QuiescesCurrent, ReloaderOk;
  }

  lemma AppendRun(s: State, process: bool)
    requires Inv(s) && s.active.None? && (process ==> s.stopping)
    requires (process || s.reloader.Idle?) && (s.server.Some? ==> s.quiescing.Some?)
    ensures var r := Run(s.server, if s.server.None? then None else s.quiescing, Quiescing, process,
                         if process then Some(Pending) else None, false);
            Inv(s.(runs := s.runs + [r], active := Some(|s.runs|)))
  {
    var r := Run(s.server, if s.server.None? then None else s.quiescing, Quiescing, process,
                 if process then Some(Pending) else None, false);
    AppendRunsOk(s, r);
    AppendOneRun(s, r);
    hide RunsOk, OneRun, QuiescesCurrent, Captured;
  }

  lemma FinishOk(s: State, run: nat)
    requires Inv(s) && run < |s.runs| && s.reloader == Joined(run) && Over(s.runs[run])
    ensures Inv(FinishReload(s, run).(reloader := if Succeeded(s.runs[run]) then Cleared else Idle))
  {
    NotFinalizedActive(s);
    hide RunOk;
  }

  lemma NotFinalizedActive(s: State)
    requires Inv(s)
    ensures forall k :: 0 <= k < |s.runs| && !s.runs[k].process ==> !s.runs[k].finalized
  {
    forall k | 0 <= k < |s.runs| && !s.runs[k].process ensures !s.runs[k].finalized {
      NotFinalized(s, k);
    }
  }

  lemma AssembleOk(s: State, works: bool)
    requires Inv(s) && !s.stopping && s.reloader.Idle?
    ensures Inv(Assemble(s, works))
  {
    hide RunOk;
  }

  lemma FinalizeOk(s: State, run: nat)
    requires Inv(s)
    ensures Inv(DoFinalize(s, run))
  {
    var t := DoFinalize(s, run);
    if t != s {
      assert RunOk(s.runs[run], s.quiesces);
      assert RunOk(t.runs[run], t.quiesces);
      assert s.active == Some(run);
      hide RunOk;
    }
  }

  // ---- steps and runs ----

  lemma StopKeepsInv(s: State)
    requires Inv(s)
    ensures Inv(DoStop(s))
  {
    var a := s.(stopping := true);
    StopStopping(s);
    var done := s.active.Some? && !s.runs[s.active.value].process && Succeeded(s.runs[s.active.value]);
    if done {
      DropActive(a);
    }
    var b := if done then Clear(a).(active := None) else a;
    if b.active.None? {
      AddRun(b, true);
    } else {
      assert RunOk(b.runs[b.active.value], b.quiesces);
      ReplaceRun(b, b.active.value, Promote(b.runs[b.active.value]));
    }
  }

  lemma ReloadKeepsInv(s: State)
    requires Inv(s)
    ensures Inv(DoReload(s))
  {
    if !s.stopping && s.reloader.Idle? {
      var over := s.active.Some? && Over(s.runs[s.active.value]);
      if !over || Succeeded(s.runs[s.active.value]) {
        if over {
          DropActive(s);
        }
        var b := if over then Clear(s).(active := None) else s;
        if b.active.None? {
          AddRun(b, false);
        }
      }
    }
  }

  lemma QuiesceKeepsInv(s: State)
    requires Inv(s)
    ensures Inv(DoQuiesceRequests(s))
  {
    StopStopping(s);
    var a := s.(stopping := true);
    var server := if s.server.None? && s.active.Some? then s.runs[s.active.value].server else s.server;
    if server.Some? && s.quiescing.None? {
      OpenQuiesce(a, Quiesce(server.value, true, false, false));
    } else if server.Some? {
      ReplaceQuiesce(a, s.quiescing.value, s.quiesces[s.quiescing.value].(started := true));
    }
  }

  lemma AdvanceOk(s: State, r: Run, err: bool)
    requires RunOk(r, s.quiesces)
    ensures RunOk(Advance(s, r, err), s.quiesces) && (Over(r) ==> Advance(s, r, err) == r)
  {
  }

  lemma AdvanceControlOk(s: State, r: Run, err: bool)
    requires RunOk(r, s.quiesces)
    ensures RunOk(AdvanceControl(r, err), s.quiesces) && AdvanceControl(r, err).phase == r.phase
  {
  }

  lemma CoordinateKeepsInv(s: State, run: nat, err: bool)
    requires Inv(s) && run < |s.runs|
    ensures Inv(s.(runs := s.runs[run := Advance(s, s.runs[run], err)]))
    ensures Inv(s.(runs := s.runs[run := AdvanceControl(s.runs[run], err)]))
  {
    assert RunOk(s.runs[run], s.quiesces);
    AdvanceOk(s, s.runs[run], err);
    AdvanceControlOk(s, s.runs[run], err);
    assert s.runs[run].process ==> s.stopping;
    assert s.active != Some(run) ==> Succeeded(s.runs[run]) && !s.runs[run].process;
    hide RunOk, RunsOk, QuiescesCurrent, Captured, ReloaderOk, Inv, OneRun, DrainedOf;
    ReplaceRun(s, run, Advance(s, s.runs[run], err));
    ReplaceRun(s, run, AdvanceControl(s.runs[run], err));
  }

  lemma StepKeepsInv(s: State, e: Event)
    requires Inv(s)
    ensures Inv(Step(s, e))
  {
    match e
    case Start(enabled, works) => StartKeepsInv(s, enabled, works);
    case Stop => StopKeepsInv(s);
    case Reload => ReloadKeepsInv(s);
    case ReloadFinishes =>
      if s.reloader.Joined? && Over(s.runs[s.reloader.run]) {
        FinishOk(s, s.reloader.run);
      }
    case ReloadGivesUp => ReloaderToIdle(s);
    case Restart(works) =>
      ReloaderToIdle(s);
      if !s.stopping {
        AssembleOk(s.(reloader := Idle), works);
      }
    case QuiesceRequests => QuiesceKeepsInv(s);
    case Finalize(run) => FinalizeOk(s, run);
    case BeginDrain(run) =>
      if run < |s.runs| && s.runs[run].quiesce.Some? && s.runs[run].quiesce.value < |s.quiesces| {
        var q := s.runs[run].quiesce.value;
        ReplaceQuiesce(s, q, s.quiesces[q].(started := true));
      }
    case EndDrain(q, err) =>
      if q < |s.quiesces| {
        ReplaceQuiesce(s, q, s.quiesces[q].(done := true, err := err));
      }
    case Coordinate(run, err) =>
      if run < |s.runs| {
        CoordinateKeepsInv(s, run, err);
      }
    case CoordinateControl(run, err) =>
      if run < |s.runs| {
        CoordinateKeepsInv(s, run, err);
      }
  }

  lemma ReloaderToIdle(s: State)
    requires Inv(s)
    ensures Inv(s.(reloader := Idle))
  {
  }

  lemma StartKeepsInv(s: State, enabled: bool, works: bool)
    requires Inv(s)
    ensures Inv(DoStart(s, enabled, works))
  {
    hide RunOk;
  }

  lemma {:induction false} RunKeepsInv(s: State, events: seq<Event>)
    requires Inv(s)
    ensures Inv(After(s, events))
    decreases |events|
  {
    hide RunsOk, OneRun, QuiescesCurrent, Captured, ReloaderOk, Step;
    if events != [] {
      StepKeepsInv(s, events[0]);
      RunKeepsInv(Step(s, events[0]), events[1..]);
    }
  }

  // In every interleaving, of every shutdown run: its dependencies are detached only after the drain of its own
  // server returned, the control plane is stopped only after its SIP generation finished without error, and it is
  // finalised only after both generations are done.
  lemma {:induction false} RunsAreOrdered(events: seq<Event>, k: nat)
    requires k < |After(Init(), events).runs|
    ensures var s := After(Init(), events); var r := s.runs[k];
            && (r.server.Some? && (r.phase.Detaching? || Over(r)) ==>
                  r.quiesce.Some? && r.quiesce.value < |s.quiesces|
                  && s.quiesces[r.quiesce.value].server == r.server.value && s.quiesces[r.quiesce.value].done)
            && (r.control.Some? && (r.control.value.Stopping? || (r.control.value.ControlDone? && r.control.value.stopped)) ==> Succeeded(r))
            && (r.finalized ==> Over(r) && r.control.Some? && r.control.value.ControlDone?)
  {
    RunKeepsInv(Init(), events);
    hide Init, After;
    var s := After(Init(), events);
    assert RunOk(s.runs[k], s.quiesces);
  }

  // Callers join one shutdown: only the active run can be unfinished, failed or a process stop, process
  // finalisation happens at most once, and no SIP generation is shut down by two runs.
  lemma {:induction false} OneShutdownAtATime(events: seq<Event>)
    ensures var s := After(Init(), events);
            && s.finalizations <= 1
            && (forall i, j :: 0 <= i < j < |s.runs| ==>
                  && ((Succeeded(s.runs[i]) && !s.runs[i].process) || (Succeeded(s.runs[j]) && !s.runs[j].process))
                  && (s.runs[i].server.Some? ==> s.runs[i].server != s.runs[j].server))
  {
    RunKeepsInv(Init(), events);
    hide Init, After, RunsOk;
  }

  // Once stopping, for ever stopping: nothing assembles a SIP generation again.
  lemma {:induction false} StoppingIsFinal(s: State, events: seq<Event>)
    requires ActiveIn(s) && s.stopping
    ensures After(s, events).stopping && After(s, events).nextServer == s.nextServer
    decreases |events|
  {
    if events != [] {
      StepKeepsActiveIn(s, events[0]);
      StoppingIsFinal(Step(s, events[0]), events[1..]);
    }
  }

  // ---- the shape of a step, as far as the runtime pointers and the runs go ----

  predicate Evolved(a: Run, b: Run) {
    b.server == a.server && b.finalized == a.finalized && (Over(a) ==> b.phase == a.phase)
  }

  // Runs may progress; pointers and the active run stay.
  ghost predicate Quiet(s: State, t: State) {
    && t.server == s.server && t.active == s.active && t.nextServer == s.nextServer && |t.runs| == |s.runs|
    && forall k :: 0 <= k < |s.runs| ==> Evolved(s.runs[k], t.runs[k])
  }

  predicate Assembled(s: State, t: State) {
    && !s.stopping && s.server.None? && t.server == Some(s.nextServer) && t.nextServer == s.nextServer + 1
    && t.active == s.active && t.runs == s.runs
  }

  // The pointers of a finished reload are cleared.
  predicate Dropped(s: State, t: State) {
    && ActiveIn(s) && s.active.Some? && Succeeded(s.runs[s.active.value]) && !s.runs[s.active.value].process
    && t.server.None? && t.active.None? && t.nextServer == s.nextServer && t.runs == s.runs
  }

  predicate Opened(s: State, t: State) {
    && s.active.None? && |t.runs| == |s.runs| + 1 && t.runs[..|s.runs|] == s.runs && t.active == Some(|s.runs|)
    && t.runs[|s.runs|].server == s.server && !t.runs[|s.runs|].finalized && !Over(t.runs[|s.runs|])
    && t.server == s.server && t.nextServer == s.nextServer
  }

  predicate Finalised(s: State, t: State) {
    && s.active.Some? && s.active.value < |s.runs| && Over(s.runs[s.active.value]) && s.runs[s.active.value].process
    && t.server.None? && t.active == s.active && t.nextServer == s.nextServer
    && t.runs == s.runs[s.active.value := s.runs[s.active.value].(finalized := true)]
  }

  ghost predicate Moved(s: State, t: State) {
    Quiet(s, t) || Assembled(s, t) || Dropped(s, t) || Opened(s, t) || Finalised(s, t)
    || (Dropped(s, Between(s, t)) && Opened(Between(s, t), t))
  }

  // The state between dropping the pointers of a finished run and opening the next one.
  function Between(s: State, t: State): State {
    Clear(s).(active := None, stopping := t.stopping)
  }

  lemma StopMoves(s: State)
    requires Inv(s)
    ensures Moved(s, DoStop(s))
  {
    var a := s.(stopping := true);
    var done := s.active.Some? && !s.runs[s.active.value].process && Succeeded(s.runs[s.active.value]);
    var b := if done then Clear(a).(active := None) else a;
    hide Inv;
    if b.active.None? {
      assert Opened(b, DoStop(s));
      if done {
        assert Dropped(s, b) && b == Between(s, DoStop(s));
      } else {
        assert Opened(s, DoStop(s));
      }
    } else {
      assert Quiet(s, DoStop(s));
    }
  }

  lemma ReloadMoves(s: State)
    requires Inv(s)
    ensures Moved(s, DoReload(s))
  {
    var t := DoReload(s);
    var over := s.active.Some? && Over(s.runs[s.active.value]);
    assert over && Succeeded(s.runs[s.active.value]) && !s.stopping ==> !s.runs[s.active.value].process;
    hide Inv;
    if s.stopping || !s.reloader.Idle? || (over && !Succeeded(s.runs[s.active.value])) {
      assert Quiet(s, t);
    } else if over {
      var b := Clear(s).(active := None);
      assert Opened(b, t) && Dropped(s, b) && b == Between(s, t);
    } else if s.active.None? {
      assert Opened(s, t);
    } else {
      assert Quiet(s, t);
    }
  }

  lemma FinishMoves(s: State)
    requires Inv(s)
    ensures Moved(s, DoFinishReload(s))
  {
    var t := DoFinishReload(s);
    hide RunsOk, OneRun, QuiescesCurrent, Captured;
    if s.reloader.Joined? && Succeeded(s.runs[s.reloader.run]) && !s.runs[s.reloader.run].process && s.active == Some(s.reloader.run) {
      assert Dropped(s, t);
    } else {
      assert Quiet(s, t);
    }
  }

  lemma FinalizeMoves(s: State, run: nat)
    requires Inv(s)
    ensures Moved(s, DoFinalize(s, run))
  {
    var t := DoFinalize(s, run);
    hide RunsOk, QuiescesCurrent, Captured, ReloaderOk;
    if t == s {
      assert Quiet(s, t);
    } else {
      assert Finalised(s, t);
    }
  }

  lemma CoordinateMoves(s: State, run: nat, err: bool)
    requires run < |s.runs|
    ensures Moved(s, s.(runs := s.runs[run := Advance(s, s.runs[run], err)]))
    ensures Moved(s, s.(runs := s.runs[run := AdvanceControl(s.runs[run], err)]))
  {
    assert Quiet(s, s.(runs := s.runs[run := Advance(s, s.runs[run], err)]));
    assert Quiet(s, s.(runs := s.runs[run := AdvanceControl(s.runs[run], err)]));
  }

  lemma OtherSectionsMove(s: State, enabled: bool, works: bool)
    requires ActiveIn(s)
    ensures Moved(s, DoStart(s, enabled, works))
    ensures Moved(s, DoRestart(s, works))
    ensures Moved(s, DoQuiesceRequests(s))
  {
    var a, b := DoStart(s, enabled, works), DoRestart(s, works);
    assert Quiet(s, a) || Assembled(s, a);
    assert Quiet(s, b) || Assembled(s, b);
    assert Quiet(s, DoQuiesceRequests(s));
  }

  lemma DrainsMove(s: State, run: nat, q: nat, err: bool)
    ensures Moved(s, DoBeginDrain(s, run)) && Moved(s, DoEndDrain(s, q, err)) && Moved(s, s) && Moved(s, s.(reloader := Idle))
  {
    assert Quiet(s, DoBeginDrain(s, run)) && Quiet(s, DoEndDrain(s, q, err)) && Quiet(s, s) && Quiet(s, s.(reloader := Idle));
  }

  lemma SectionsMove(s: State, e: Event)
    requires Inv(s) && (e.Start? || e.Stop? || e.Reload? || e.ReloadFinishes? || e.Restart? || e.QuiesceRequests? || e.Finalize?)
    ensures Moved(s, Step(s, e))
  {
    hide Moved, DoStart, DoStop, DoReload, DoFinishReload, DoRestart, DoQuiesceRequests, DoFinalize;
    match e
    case Start(enabled, works) => OtherSectionsMove(s, enabled, works);
    case Stop => StopMoves(s);
    case Reload => ReloadMoves(s);
    case ReloadFinishes => FinishMoves(s);
    case Restart(works) => OtherSectionsMove(s, false, works);
    case QuiesceRequests => OtherSectionsMove(s, false, false);
    case Finalize(run) => FinalizeMoves(s, run);
  }

  lemma DrainStepsMove(s: State, e: Event)
    requires ActiveIn(s) && (e.ReloadGivesUp? || e.BeginDrain? || e.EndDrain?)
    ensures Moved(s, Step(s, e))
  {
    hide Moved, DoBeginDrain, DoEndDrain;
    DrainsMove(s, if e.BeginDrain? then e.run else 0, if e.EndDrain? then e.q else 0, e.EndDrain? && e.err);
  }

  lemma CoordinatorsMove(s: State, e: Event)
    requires ActiveIn(s) && (e.Coordinate? || e.CoordinateControl?)
    ensures Moved(s, Step(s, e))
  {
    hide Moved, Advance, AdvanceControl;
    if e.run < |s.runs| {
      CoordinateMoves(s, e.run, e.err);
    } else {
      DrainsMove(s, 0, 0, false);
    }
  }

  lemma StepMoves(s: State, e: Event)
    requires Inv(s)
    ensures Moved(s, Step(s, e))
  {
    hide Step, Moved;
    if e.ReloadGivesUp? || e.BeginDrain? || e.EndDrain? {
      DrainStepsMove(s, e);
    } else if e.Coordinate? || e.CoordinateControl? {
      CoordinatorsMove(s, e);
    } else {
      SectionsMove(s, e);
    }
  }

  // A failed reload generation stays the active one, and the pointers it captured stay in place, until a
  // process stop has finalised it.
  lemma {:induction false} FailedGenerationStays(before: seq<Event>, after: seq<Event>, k: nat)
    requires var s := After(Init(), before);
             s.active == Some(k) && Over(s.runs[k]) && !Succeeded(s.runs[k]) && s.server.Some?
    ensures var s := After(Init(), before); var t := After(s, after);
            && t.active == Some(k) && t.runs[k].phase == s.runs[k].phase && t.nextServer == s.nextServer
            && (t.server == s.server || t.runs[k].finalized)
  {
    RunKeepsInv(Init(), before);
    hide Init, Inv;
    FailedStays(After(Init(), before), after, k, After(Init(), before).server);
  }

  // A failed active run: finalised, or still holding the pointers.
  predicate Failed(s: State, k: nat, server: Option<nat>) {
    && s.active == Some(k) && k < |s.runs| && Over(s.runs[k]) && !Succeeded(s.runs[k])
    && (s.server == server || (s.runs[k].finalized && s.stopping))
  }

  lemma {:induction false} FailedStays(s: State, events: seq<Event>, k: nat, server: Option<nat>)
    requires Inv(s) && Failed(s, k, server) && server.Some?
    ensures var t := After(s, events);
            && t.active == Some(k) && t.runs[k].phase == s.runs[k].phase && t.nextServer == s.nextServer
            && (t.server == server || t.runs[k].finalized)
    decreases |events|
  {
    if events != [] {
      StepMoves(s, events[0]);
      StepKeepsInv(s, events[0]);
      FailedMoves(s, Step(s, events[0]), k, server);
      hide Step, Inv, Failed, Moved;
      FailedStays(Step(s, events[0]), events[1..], k, server);
    }
  }

  lemma FailedMoves(s: State, t: State, k: nat, server: Option<nat>)
    requires Inv(s) && Inv(t) && Moved(s, t) && Failed(s, k, server) && server.Some?
    ensures Failed(t, k, server) && t.runs[k].phase == s.runs[k].phase && t.nextServer == s.nextServer
  {
    assert t.active == Some(k) && t.runs[k].finalized ==> t.runs[k].process by {
      NotFinalizedActive(t);
    }
    hide RunsOk, QuiescesCurrent, Captured, ReloaderOk;
  }

  // When a process stop is finalised, its control plane was stopped exactly if the SIP generation succeeded;
  // the control-plane references are dropped either way.
  lemma {:induction false} ControlPlaneStoppedExactly(events: seq<Event>, k: nat)
    requires var s := After(Init(), events); k < |s.runs| && s.runs[k].finalized
    ensures var s := After(Init(), events);
            s.runs[k].control.Some? && s.runs[k].control.value.ControlDone?
            && (s.runs[k].control.value.stopped <==> Succeeded(s.runs[k]))
  {
    RunKeepsInv(Init(), events);
    hide Init, After;
    var s := After(Init(), events);
    assert RunOk(s.runs[k], s.quiesces);
  }

  // A drain that fails: the later process stop never stops the control plane, yet drops its references.
  function FailingReload(): seq<Event> {
    [Start(true, true), Reload, BeginDrain(0), EndDrain(0, true), Coordinate(0, false), Coordinate(0, false),
     Coordinate(0, false), Coordinate(0, false)]
  }

  function LaterStop(): seq<Event> {
    [Stop, CoordinateControl(0, false), Finalize(0)]
  }

  function FailedReload(): State {
    State(false, Some(0), 1, Some(0), Some(0), [Run(Some(0), Some(0), Finished(true), false, None, false)],
          [Quiesce(0, true, true, true)], Joined(0), true, 0)
  }

  lemma {:induction false} FailingReloadRuns()
    ensures After(Init(), FailingReload()) == FailedReload()
  {
    var e := FailingReload();
    var r := Run(Some(0), Some(0), Quiescing, false, None, false);
    var s1 := Step(Init(), e[0]);
    var s2 := Step(s1, e[1]);
    assert s2 == FailedReload().(runs := [r], quiesces := [Quiesce(0, false, false, false)]);
    var s3 := Step(s2, e[2]);
    var s4 := Step(s3, e[3]);
    assert s4 == FailedReload().(runs := [r]);
    var s5 := Step(s4, e[4]);
    var s6 := Step(s5, e[5]);
    var s7 := Step(s6, e[6]);
    assert Step(s7, e[7]) == FailedReload();
    hide Step;
    Unfolds(Init(), e); Unfolds(s1, e[1..]); Unfolds(s2, e[2..]); Unfolds(s3, e[3..]); Unfolds(s4, e[4..]); Unfolds(s5, e[5..]);
    Unfolds(s6, e[6..]); Unfolds(s7, e[7..]);
  }

  lemma {:induction false} LaterStopRuns()
    ensures var s := After(FailedReload(), LaterStop());
            |s.runs| == 1 && s.runs[0].finalized && !s.controlPlane && s.runs[0].control == Some(ControlDone(true, false))
  {
    hide After;
    var s, e := FailedReload(), LaterStop();
    var s1 := Step(s, e[0]);
    assert s1 == s.(stopping := true, runs := [s.runs[0].(process := true, control := Some(Pending))]);
    var s2 := Step(s1, e[1]);
    assert s2 == s1.(runs := [s1.runs[0].(control := Some(ControlDone(true, false)))]);
    var s3 := Step(s2, e[2]);
    assert s3.runs == [s2.runs[0].(finalized := true)] && !s3.controlPlane;
    hide Step;
    Unfolds(s, e); Unfolds(s1, e[1..]); Unfolds(s2, e[2..]);
  }

  lemma {:induction false} FailingStopDropsControlPlane()
    ensures var s := After(After(Init(), FailingReload()), LaterStop());
            |s.runs| == 1 && s.runs[0].finalized && !s.controlPlane && s.runs[0].control == Some(ControlDone(true, false))
  {
    hide *;
    FailingReloadRuns();
    LaterStopRuns();
  }

  // ---- what the steps bring about ----

  // A reload that succeeded while nothing stops the process assembles the next generation.
  lemma {:induction false} ReloadAssembles(events: seq<Event>)
    requires var s := After(Init(), events);
             !s.stopping && s.reloader.Joined? && s.reloader.run < |s.runs| && Over(s.runs[s.reloader.run]) && !s.runs[s.reloader.run].phase.err
    ensures var s := After(Init(), events);
            var t := Step(Step(s, ReloadFinishes), Restart(true));
            t.server == Some(s.nextServer) && t.nextServer == s.nextServer + 1 && t.reloader.Idle? && t.active.None? && t.quiescing.None?
  {
    RunKeepsInv(Init(), events);
    hide After, Init, RunOk;
    var s := After(Init(), events);
    assert !s.runs[s.reloader.run].process;
    assert s.active == Some(s.reloader.run);
  }

  // Quiescing stops the process in every state, and the drain of the current server, or of the one that the active
  // run captured, has been asked for.
  lemma {:induction false} QuiesceStops(events: seq<Event>)
    ensures var s := After(Init(), events);
            var t := Step(s, QuiesceRequests);
            var target := if s.server.Some? then s.server else if s.active.Some? then s.runs[s.active.value].server else None;
            && t.stopping && t.server == s.server && t.active == s.active && t.runs == s.runs
            && (target.Some? ==> t.quiescing.Some? && t.quiescing.value < |t.quiesces| && t.quiesces[t.quiescing.value].started)
            && (target.Some? && s.quiescing.None? ==> t.quiesces[t.quiescing.value].server == target.value)
  {
    RunKeepsInv(Init(), events);
    hide After, Init, RunsOk, OneRun, QuiescesCurrent, Captured, ReloaderOk;
  }

  // The coordinator of a run: it waits for the drain of its own server twice, and the generation fails exactly if the
  // drain had failed when it was first seen or the detaching fails.
  lemma CoordinatorSteps(s: State, k: nat, err: bool)
    requires ActiveIn(s) && k < |s.runs|
    ensures var r := s.runs[k];
            var t := Step(s, Coordinate(k, err));
            var drained := r.quiesce.None? || (r.quiesce.value < |s.quiesces| && s.quiesces[r.quiesce.value].done);
            && |t.runs| == |s.runs| && t.runs[k] == r.(phase := t.runs[k].phase)
            && (forall j :: 0 <= j < |s.runs| && j != k ==> t.runs[j] == s.runs[j])
            && t.runs[k].phase ==
                 match r.phase
                 case Quiescing => if drained then ClosingCache(r.quiesce.Some? && s.quiesces[r.quiesce.value].err) else Quiescing
                 case ClosingCache(failed) => Phase.Waiting(failed)
                 case Waiting(failed) => if drained then Detaching(failed) else Phase.Waiting(failed)
                 case Detaching(failed) => Finished(failed || err)
                 case Finished(failed) => Finished(failed)
  {
  }

  lemma Unfolds(s: State, events: seq<Event>)
    requires ActiveIn(s) && events != []
    ensures ActiveIn(Step(s, events[0])) && After(s, events) == After(Step(s, events[0]), events[1..])
    ensures |events| == 1 ==> After(s, events) == Step(s, events[0])
  {
    StepKeepsActiveIn(s, events[0]);
  }
}
