// Which SIP generations are dropped without a shutdown: exactly some of those that Start assembles while a shutdown
// run is active.
module ShutdownLost {
  import opened Wrappers
  import opened ShutdownGenerations
  import opened ShutdownTheorems

  ghost predicate ShutDown(s: State, server: nat) {
    exists k :: 0 <= k < |s.runs| && s.runs[k].server == Some(server) && Over(s.runs[k])
  }

  // A generation that is neither current nor was shut down to the end.
  ghost predicate Lost(s: State, server: nat) {
    s.server != Some(server) && !ShutDown(s, server)
  }

  // ---- a generation that meets no active run is held by the next one ----

  ghost predicate Safe(s: State, server: nat) {
    || ShutDown(s, server)
    || (s.server == Some(server)
        && (s.active.Some? ==> s.active.value < |s.runs| && s.runs[s.active.value].server == Some(server)))
  }

  lemma ShutDownStays(s: State, t: State, server: nat)
    requires Moved(s, t) && ShutDown(s, server)
    ensures ShutDown(t, server)
  {
    var k :| 0 <= k < |s.runs| && s.runs[k].server == Some(server) && Over(s.runs[k]);
    assert t.runs[k].server == Some(server) && Over(t.runs[k]) by {
      assert Opened(s, t) || Opened(Between(s, t), t) ==> t.runs[..|s.runs|][k] == s.runs[k];
    }
  }

  lemma MovedKeepsSafe(s: State, t: State, server: nat)
    requires Moved(s, t) && Safe(s, server)
    ensures Safe(t, server)
  {
    assert forall k :: 0 <= k < |s.runs| && s.runs[k].server == Some(server) && Over(s.runs[k]) ==> ShutDown(s, server);
    if ShutDown(s, server) {
      ShutDownStays(s, t, server);
    }
    hide ShutDown;
  }

  lemma {:induction false} SafeIsNotLost(s: State, events: seq<Event>, server: nat)
    requires Inv(s) && Safe(s, server)
    ensures !Lost(After(s, events), server)
    decreases |events|
  {
    if events != [] {
      StepKeepsInv(s, events[0]);
      StepMoves(s, events[0]);
      MovedKeepsSafe(s, Step(s, events[0]), server);
      hide Inv, Step, Moved, Safe, Lost;
      SafeIsNotLost(Step(s, events[0]), events[1..], server);
    }
  }

  // ---- before any stop, the active run captured the current generation or none ----

  ghost predicate Grounded(s: State) {
    !s.stopping && s.active.Some? && s.active.value < |s.runs| && s.runs[s.active.value].server.Some? ==>
      s.server == s.runs[s.active.value].server
  }

  lemma StoppingStays(s: State, e: Event)
    requires ActiveIn(s) && s.stopping
    ensures Step(s, e).stopping
  {
  }

  lemma MovedKeepsGrounded(s: State, t: State)
    requires Inv(s) && Moved(s, t) && Grounded(s) && (s.stopping ==> t.stopping)
    ensures Grounded(t)
  {
    hide RunsOk, QuiescesCurrent, Captured, ReloaderOk;
  }

  lemma {:induction false} RunKeepsGrounded(s: State, events: seq<Event>)
    requires Inv(s) && Grounded(s)
    ensures Inv(After(s, events)) && Grounded(After(s, events))
    decreases |events|
  {
    if events != [] {
      StepKeepsInv(s, events[0]);
      StepMoves(s, events[0]);
      if s.stopping {
        StoppingStays(s, events[0]);
      }
      MovedKeepsGrounded(s, Step(s, events[0]));
      hide Inv, Step, Moved, Grounded;
      RunKeepsGrounded(Step(s, events[0]), events[1..]);
    }
  }

  // ---- a generation that meets an active run can be dropped with it ----

  // The run that Start met: it captured nothing, and nothing has captured `server`.
  ghost predicate Doomed(s: State, k: nat, server: nat) {
    && Inv(s) && s.active == Some(k) && k < |s.runs| && s.runs[k].server.None?
    && (forall i :: 0 <= i < |s.runs| ==> s.runs[i].server != Some(server))
  }

  function Left(r: Run): nat {
    match r.phase
    case Quiescing => 4
    case ClosingCache(_) => 3
    case Waiting(_) => 2
    case Detaching(_) => 1
    case Finished(_) => 0
  }

  lemma CoordinateDoomed(s: State, k: nat, server: nat)
    requires Doomed(s, k, server) && !Over(s.runs[k])
    ensures var t := Step(s, Coordinate(k, false)); Doomed(t, k, server) && Left(t.runs[k]) < Left(s.runs[k]) && t.stopping == s.stopping
  {
    StepKeepsInv(s, Coordinate(k, false));
    assert RunOk(s.runs[k], s.quiesces);
    hide Inv, RunOk;
  }

  lemma {:induction false} FinishesAlone(s: State, k: nat, server: nat) returns (events: seq<Event>)
    requires Doomed(s, k, server)
    ensures var t := After(s, events); Doomed(t, k, server) && Over(t.runs[k]) && t.stopping == s.stopping
    decreases Left(s.runs[k])
  {
    if Over(s.runs[k]) {
      events := [];
    } else {
      CoordinateDoomed(s, k, server);
      var t := Step(s, Coordinate(k, false));
      var rest := FinishesAlone(t, k, server);
      hide Doomed, Step;
      events := [Coordinate(k, false)] + rest;
      Unfolds(s, events);
    }
  }

  // Succeeded: the next stop clears the pointers with it.
  lemma StopAfterSuccess(s: State, k: nat, server: nat)
    requires Doomed(s, k, server) && Succeeded(s.runs[k]) && !s.runs[k].process
    ensures Lost(After(s, [Stop]), server)
  {
    Unfolds(s, [Stop]);
    hide Inv;
  }

  lemma PromotedStep(s: State, k: nat, server: nat)
    requires Doomed(s, k, server) && Over(s.runs[k]) && (s.runs[k].process || !Succeeded(s.runs[k])) && !s.runs[k].finalized
    ensures var t := Step(s, Stop); Doomed(t, k, server) && Over(t.runs[k]) && t.runs[k].process && !t.runs[k].finalized
  {
    StepKeepsInv(s, Stop);
    hide Inv;
  }

  // How far the control-plane coordinator is from its end.
  function ControlLeft(r: Run): nat {
    match r.control
    case Some(Pending) => 2
    case Some(Stopping) => 1
    case _ => 0
  }

  lemma ControlStep(s: State, k: nat, server: nat)
    requires Doomed(s, k, server) && Over(s.runs[k]) && s.runs[k].process && !s.runs[k].finalized
    ensures var t := Step(s, CoordinateControl(k, false));
            Doomed(t, k, server) && Over(t.runs[k]) && t.runs[k].process && !t.runs[k].finalized && t.runs[k].control.Some?
            && ControlLeft(t.runs[k]) <= (if ControlLeft(s.runs[k]) == 0 then 0 else ControlLeft(s.runs[k]) - 1)
  {
    StepKeepsInv(s, CoordinateControl(k, false));
    assert RunOk(s.runs[k], s.quiesces);
    hide Inv, RunOk;
  }

  lemma ControlEnds(s: State, k: nat, server: nat) returns (events: seq<Event>)
    requires Doomed(s, k, server) && Over(s.runs[k]) && s.runs[k].process && !s.runs[k].finalized
    ensures var t := After(s, events);
            Doomed(t, k, server) && Over(t.runs[k]) && t.runs[k].process && !t.runs[k].finalized
            && t.runs[k].control.Some? && t.runs[k].control.value.ControlDone?
  {
    var e := CoordinateControl(k, false);
    ControlStep(s, k, server);
    ControlStep(Step(s, e), k, server);
    hide Doomed, Step;
    events := [e, e];
    Unfolds(s, events);
    Unfolds(Step(s, e), events[1..]);
  }

  lemma FinalizeDrops(s: State, k: nat, server: nat)
    requires Doomed(s, k, server) && Over(s.runs[k]) && s.runs[k].process && !s.runs[k].finalized
    requires s.runs[k].control.Some? && s.runs[k].control.value.ControlDone?
    ensures Lost(After(s, [Finalize(k)]), server)
  {
    Unfolds(s, [Finalize(k)]);
    hide Inv;
  }

  lemma {:induction false} AfterAppend(s: State, a: seq<Event>, b: seq<Event>)
    requires ActiveIn(s)
    ensures After(s, a + b) == After(After(s, a), b)
    decreases |a|
  {
    if a == [] {
      assert a + b == b;
    } else {
      assert (a + b)[1..] == a[1..] + b;
      StepKeepsActiveIn(s, a[0]);
      hide Step;
      AfterAppend(Step(s, a[0]), a[1..], b);
    }
  }

  lemma DropsFailed(s: State, k: nat, server: nat) returns (events: seq<Event>)
    requires Doomed(s, k, server) && Over(s.runs[k]) && !Succeeded(s.runs[k]) && !s.runs[k].finalized
    ensures Lost(After(s, events), server)
  {
    PromotedStep(s, k, server);
    var t := Step(s, Stop);
    var control := ControlEnds(t, k, server);
    FinalizeDrops(After(t, control), k, server);
    hide Step, Lost, Doomed;
    events := [Stop] + (control + [Finalize(k)]);
    Unfolds(s, events);
    AfterAppend(t, control, [Finalize(k)]);
  }

  lemma DropsDoomed(s: State, k: nat, server: nat) returns (events: seq<Event>)
    requires Doomed(s, k, server) && !s.stopping
    ensures Lost(After(s, events), server)
  {
    var alone := FinishesAlone(s, k, server);
    var t := After(s, alone);
    UnstoppedIsReload(t, k);
    var rest: seq<Event>;
    if Succeeded(t.runs[k]) {
      StopAfterSuccess(t, k, server);
      rest := [Stop];
    } else {
      rest := DropsFailed(t, k, server);
    }
    hide Lost, Doomed;
    events := alone + rest;
    AfterAppend(s, alone, rest);
  }

  lemma UnstoppedIsReload(s: State, k: nat)
    requires Inv(s) && k < |s.runs| && !s.stopping
    ensures !s.runs[k].process && !s.runs[k].finalized
  {
    NotFinalized(s, k);
  }

  // ---- the theorems ----

  // A generation that Start assembles can be lost later if and only if a shutdown run is active at that Start.
  lemma {:induction false} LostExactlyIfStartMeetsRun(before: seq<Event>)
    requires var s := After(Init(), before); !s.stopping && s.server.None?
    ensures var s := After(Init(), before);
            var t := Step(s, Start(true, true));
            t.server == Some(s.nextServer) && ActiveIn(t)
            && ((exists after :: Lost(After(t, after), s.nextServer)) <==> s.active.Some?)
  {
    RunKeepsGrounded(Init(), before);
    var s := After(Init(), before);
    hide Init, After;
    var t := Step(s, Start(true, true));
    StepKeepsInv(s, Start(true, true));
    var server := s.nextServer;
    if s.active.Some? {
      assert Doomed(t, s.active.value, server) && !t.stopping by { MeetsRun(s); }
      var events := DropsDoomed(t, s.active.value, server);
    } else {
      assert Safe(t, server);
      hide Inv, Lost, Step;
      forall after ensures !Lost(After(t, after), server) {
        SafeIsNotLost(t, after, server);
      }
    }
  }

  lemma MeetsRun(s: State)
    requires Inv(s) && Grounded(s) && s.active.Some? && !s.stopping && s.server.None?
    ensures Doomed(Step(s, Start(true, true)), s.active.value, s.nextServer)
  {
    StepKeepsInv(s, Start(true, true));
    hide RunsOk, OneRun, QuiescesCurrent, ReloaderOk;
  }

  // ---- whole runs ----

  predicate Orderly(s: State, e: Event) {
    e.Start? ==> s.active.None?
  }

  ghost predicate AllOrderly(s: State, events: seq<Event>)
    requires ActiveIn(s)
    decreases |events|
  {
    events != [] ==>
      Orderly(s, events[0]) && ActiveIn(Step(s, events[0])) && AllOrderly(Step(s, events[0]), events[1..])
  }

  // A restart after a reload finds no active run, so it assembles like an orderly Start.
  lemma AssemblesAlone(s: State, e: Event)
    requires Inv(s) && Orderly(s, e) && Assembled(s, Step(s, e))
    ensures s.active.None?
  {
    hide RunsOk, OneRun, QuiescesCurrent, Captured;
  }

  ghost predicate AllSafe(s: State) {
    forall server :: 0 <= server < s.nextServer ==> Safe(s, server)
  }

  lemma MovedKeepsAllSafe(s: State, t: State)
    requires Moved(s, t) && AllSafe(s) && (Assembled(s, t) ==> s.active.None?)
    ensures AllSafe(t)
  {
    forall server | 0 <= server < t.nextServer ensures Safe(t, server) {
      if server < s.nextServer {
        MovedKeepsSafe(s, t, server);
      }
    }
  }

  lemma {:induction false} RunKeepsAllSafe(s: State, events: seq<Event>)
    requires Inv(s) && AllSafe(s) && AllOrderly(s, events)
    ensures AllSafe(After(s, events))
    decreases |events|
  {
    if events != [] {
      StepKeepsInv(s, events[0]);
      StepMoves(s, events[0]);
      if Assembled(s, Step(s, events[0])) {
        AssemblesAlone(s, events[0]);
      }
      MovedKeepsAllSafe(s, Step(s, events[0]));
      hide Inv, AllSafe, Orderly, Step, Moved;
      RunKeepsAllSafe(Step(s, events[0]), events[1..]);
    }
  }

  // As long as Start is not called during a shutdown run, every SIP generation ever assembled is either
  // current or was shut down to the end.
  lemma {:induction false} NoGenerationIsLost(events: seq<Event>, server: nat)
    requires AllOrderly(Init(), events) && server < After(Init(), events).nextServer
    ensures !Lost(After(Init(), events), server)
  {
    RunKeepsAllSafe(Init(), events);
    hide After, Init;
    assert Safe(After(Init(), events), server);
  }

  // During a reload that captured nothing, Start assembles a generation, which the end of that reload drops.
  function StartDuringReload(): seq<Event> {
    [Reload, Start(true, true), Coordinate(0, false), Coordinate(0, false), Coordinate(0, false), Coordinate(0, false), ReloadFinishes]
  }

  lemma {:induction false} StartDuringReloadIsLost()
    ensures Lost(After(Init(), StartDuringReload()), 0)
  {
    var e := StartDuringReload();
    var r := Run(None, None, Quiescing, false, None, false);
    var s1 := Step(Init(), e[0]);
    assert s1 == Init().(runs := [r], active := Some(0), reloader := Joined(0));
    var s2 := Step(s1, e[1]);
    assert s2 == s1.(server := Some(0), nextServer := 1, controlPlane := true);
    var s3 := Step(s2, e[2]);
    var s4 := Step(s3, e[3]);
    var s5 := Step(s4, e[4]);
    var s6 := Step(s5, e[5]);
    assert s6 == s2.(runs := [r.(phase := Finished(false))]);
    var s7 := Step(s6, e[6]);
    assert s7.server == None && s7.nextServer == 1 && s7.runs == s6.runs && !ShutDown(s7, 0);
    hide Step;
    Unfolds(Init(), e); Unfolds(s1, e[1..]); Unfolds(s2, e[2..]); Unfolds(s3, e[3..]);
    Unfolds(s4, e[4..]); Unfolds(s5, e[5..]); Unfolds(s6, e[6..]);
  }
}
