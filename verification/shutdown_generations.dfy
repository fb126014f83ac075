// Process stop, SIP reload and request quiescing over shared shutdown generations.
// Every event is one section of code under the lifecycle mutex, one step of a generation's
// own goroutine, or the end of work that a generation waits for.
module ShutdownGenerations {
  import opened Wrappers

  // Draining the accepted requests of one SIP server; shared by everyone who waits for it.
  datatype Quiesce = Quiesce(server: nat, started: bool, done: bool, err: bool)

  // Where a SIP generation's coordinator stands; its stop context never expires, so steps run in order.
  datatype Phase = Quiescing | ClosingCache(err: bool) | Waiting(err: bool) | Detaching(err: bool) | Finished(err: bool)

  datatype Control = Pending | Stopping | ControlDone(err: bool, stopped: bool)

  datatype Run = Run(server: Option<nat>, quiesce: Option<nat>, phase: Phase, process: bool, control: Option<Control>, finalized: bool)

  // The goroutine that holds the reload mutex, if any.
  datatype Reloader = Idle | Joined(run: nat) | Cleared

  // `server` stands for the generation's runtime pointers, which are set and cleared together, and
  // `nextServer` counts the SIP generations assembled so far.
  datatype State = State(stopping: bool, server: Option<nat>, nextServer: nat, quiescing: Option<nat>, active: Option<nat>,
                         runs: seq<Run>, quiesces: seq<Quiesce>, reloader: Reloader, controlPlane: bool, finalizations: nat)

  function Init(): State {
    State(false, None, 0, None, None, [], [], Idle, false, 0)
  }

  predicate Over(r: Run) {
    r.phase.Finished?
  }

  predicate Succeeded(r: Run) {
    r.phase.Finished? && !r.phase.err
  }

  // ---- sections under the lifecycle mutex ----

  function Clear(s: State): State {
    s.(server := None, quiescing := None)
  }

  // newBootstrapShutdownRun: the run captures the current generation and its quiesce state.
  function NewRun(s: State, process: bool): State {
    var opens := s.server.Some? && s.quiescing.None?;
    var quiesces := if opens then s.quiesces + [Quiesce(s.server.value, false, false, false)] else s.quiesces;
    var quiescing := if opens then Some(|s.quiesces|) else s.quiescing;
    var run := Run(s.server, if s.server.None? then None else quiescing, Quiescing, process,
                   if process then Some(Pending) else None, false);
    s.(quiesces := quiesces, quiescing := quiescing, runs := s.runs + [run], active := Some(|s.runs|))
  }

  predicate ActiveIn(s: State) {
    s.active.Some? ==> s.active.value < |s.runs|
  }

  function Promote(r: Run): Run {
    r.(process := true, control := if r.control.None? then Some(Pending) else r.control)
  }

  function DoStop(s: State): State
    requires ActiveIn(s)
  {
    var a := s.(stopping := true);
    var done := s.active.Some? && !s.runs[s.active.value].process && Succeeded(s.runs[s.active.value]);
    var b := if done then Clear(a).(active := None) else a;
    if b.active.None? then NewRun(b, true)
    else b.(runs := b.runs[b.active.value := Promote(b.runs[b.active.value])])
  }

  // reloadSIPGeneration, entered with the reload mutex held.
  function DoReload(s: State): State
    requires ActiveIn(s)
  {
    if s.stopping || !s.reloader.Idle? then s
    else if s.active.Some? && Over(s.runs[s.active.value]) && !Succeeded(s.runs[s.active.value]) then s
    else
      var b := if s.active.Some? && Over(s.runs[s.active.value]) then Clear(s).(active := None) else s;
      var c := if b.active.None? then NewRun(b, false) else b;
      c.(reloader := Joined(c.active.value))
  }

  function FinishReload(s: State, run: nat): State
    requires run < |s.runs|
  {
    if !Over(s.runs[run]) || !Succeeded(s.runs[run]) || s.runs[run].process then s
    else Clear(s).(active := if s.active == Some(run) then None else s.active)
  }

  function DoFinishReload(s: State): State {
    if s.reloader.Joined? && s.reloader.run < |s.runs| && Over(s.runs[s.reloader.run]) then
      FinishReload(s, s.reloader.run).(reloader := if Succeeded(s.runs[s.reloader.run]) then Cleared else Idle)
    else s
  }

  // startSIPDependencies refuses to replace a generation that is still referenced.
  function Assemble(s: State, works: bool): State {
    if s.server.Some? || !works then s else s.(server := Some(s.nextServer), nextServer := s.nextServer + 1, quiescing := None)
  }

  function DoRestart(s: State, works: bool): State {
    if !s.reloader.Cleared? then s
    else if s.stopping then s.(reloader := Idle)
    else Assemble(s, works).(reloader := Idle)
  }

  // Start may give up before the control plane or with it running and no SIP generation.
  function DoStart(s: State, enabled: bool, works: bool): State {
    if s.stopping || s.server.Some? || !enabled then s else Assemble(s.(controlPlane := true), works)
  }

  function DoQuiesceRequests(s: State): State
    requires ActiveIn(s)
  {
    var server := if s.server.None? && s.active.Some? then s.runs[s.active.value].server else s.server;
    var a := s.(stopping := true);
    if server.Some? && s.quiescing.None?
    then a.(quiesces := s.quiesces + [Quiesce(server.value, true, false, false)], quiescing := Some(|s.quiesces|))
    else if server.Some? && s.quiescing.value < |s.quiesces|
    then a.(quiesces := s.quiesces[s.quiescing.value := s.quiesces[s.quiescing.value].(started := true)])
    else a
  }

  function DoFinalize(s: State, run: nat): State {
    if run >= |s.runs| then s
    else
      var r := s.runs[run];
      if !r.process || !Over(r) || r.control.None? || !r.control.value.ControlDone? || r.finalized then s
      else Clear(s).(runs := s.runs[run := r.(finalized := true)], controlPlane := false, finalizations := s.finalizations + 1)
  }

  // ---- the goroutines of a generation ----

  function DrainedOf(s: State, r: Run): Option<bool> {
    if r.quiesce.None? then Some(false)
    else if r.quiesce.value < |s.quiesces| && s.quiesces[r.quiesce.value].done then Some(s.quiesces[r.quiesce.value].err)
    else None
  }

  function Advance(s: State, r: Run, err: bool): Run {
    match r.phase
    case Quiescing => if DrainedOf(s, r).Some? then r.(phase := ClosingCache(DrainedOf(s, r).value)) else r
    case ClosingCache(e) => r.(phase := Phase.Waiting(e))
    case Waiting(e) => if DrainedOf(s, r).Some? then r.(phase := Detaching(e)) else r
    case Detaching(e) => r.(phase := Finished(e || err))
    case Finished(_) => r
  }

  function AdvanceControl(r: Run, err: bool): Run {
    match r.control
    case Some(Pending) =>
      if !Over(r) then r
      else if !Succeeded(r) then r.(control := Some(ControlDone(true, false)))
      else r.(control := Some(Stopping))
    case Some(Stopping) => r.(control := Some(ControlDone(err, true)))
    case _ => r
  }

  // The quiesce step asks for the drain; the drain itself ends on its own.
  function DoBeginDrain(s: State, run: nat): State {
    if run < |s.runs| && s.runs[run].phase.Quiescing? && s.runs[run].quiesce.Some? && s.runs[run].quiesce.value < |s.quiesces|
    then s.(quiesces := s.quiesces[s.runs[run].quiesce.value := s.quiesces[s.runs[run].quiesce.value].(started := true)])
    else s
  }

  function DoEndDrain(s: State, q: nat, err: bool): State {
    if q < |s.quiesces| && s.quiesces[q].started && !s.quiesces[q].done
    then s.(quiesces := s.quiesces[q := s.quiesces[q].(done := true, err := err)]) else s
  }

  datatype Event =
    | Start(enabled: bool, works: bool)
    | Stop
    | Reload
    | ReloadFinishes
    | ReloadGivesUp
    | Restart(works: bool)
    | QuiesceRequests
    | Finalize(run: nat)
    | BeginDrain(run: nat)
    | EndDrain(q: nat, err: bool)
    | Coordinate(run: nat, err: bool)
    | CoordinateControl(run: nat, err: bool)

  function Step(s: State, e: Event): State
    requires ActiveIn(s)
  {
    match e
    case Start(enabled, works) => DoStart(s, enabled, works)
    case Stop => DoStop(s)
    case Reload => DoReload(s)
    case ReloadFinishes => DoFinishReload(s)
    case ReloadGivesUp => if s.reloader.Joined? then s.(reloader := Idle) else s
    case Restart(works) => DoRestart(s, works)
    case QuiesceRequests => DoQuiesceRequests(s)
    case Finalize(run) => DoFinalize(s, run)
    case BeginDrain(run) => DoBeginDrain(s, run)
    case EndDrain(q, err) => DoEndDrain(s, q, err)
    case Coordinate(run, err) => if run < |s.runs| then s.(runs := s.runs[run := Advance(s, s.runs[run], err)]) else s
    case CoordinateControl(run, err) => if run < |s.runs| then s.(runs := s.runs[run := AdvanceControl(s.runs[run], err)]) else s
  }

  lemma StepKeepsActiveIn(s: State, e: Event)
    requires ActiveIn(s)
    ensures ActiveIn(Step(s, e))
  {
  }

  ghost function After(s: State, events: seq<Event>): (t: State)
    requires ActiveIn(s)
    ensures ActiveIn(t)
    decreases |events|
  {
    if events == [] then s else
      StepKeepsActiveIn(s, events[0]);
      After(Step(s, events[0]), events[1..])
  }
}
