// One process stop that nothing else interrupts, from its call to the dropped references.
module ShutdownProgress {
  import opened Wrappers
  import opened ShutdownGenerations
  import opened ShutdownTheorems

  // The drain `q` of a run is asked for and ends; its coordinator then passes its four phases.
  function Generation(k: nat, q: nat, err: bool, detaching: bool): seq<Event> {
    [BeginDrain(k), EndDrain(q, err), Coordinate(k, false), Coordinate(k, false), Coordinate(k, false), Coordinate(k, detaching)]
  }

  lemma DrainSteps(s: State, k: nat, q: nat, err: bool)
    requires ActiveIn(s) && k < |s.runs| && s.runs[k].phase.Quiescing? && s.runs[k].quiesce == Some(q)
    requires q < |s.quiesces| && !s.quiesces[q].done
    ensures ActiveIn(Step(s, BeginDrain(k)))
    ensures Step(Step(s, BeginDrain(k)), EndDrain(q, err)) == s.(quiesces := s.quiesces[q := Quiesce(s.quiesces[q].server, true, true, err)])
  {
  }

  // The state with run `k` in this phase.
  function Put(s: State, k: nat, phase: Phase): State
    requires k < |s.runs|
  {
    s.(runs := s.runs[k := s.runs[k].(phase := phase)])
  }

  lemma CoordinateStep(s: State, k: nat, from: Phase, err: bool, to: Phase)
    requires ActiveIn(s) && k < |s.runs| && Advance(s, s.runs[k].(phase := from), err).phase == to
    ensures ActiveIn(Put(s, k, from)) && Step(Put(s, k, from), Coordinate(k, err)) == Put(s, k, to)
  {
    assert DrainedOf(Put(s, k, from), s.runs[k].(phase := from)) == DrainedOf(s, s.runs[k]);
  }

  lemma {:induction false} CoordinatorFinishes(s: State, k: nat, err: bool, detaching: bool)
    requires ActiveIn(s) && k < |s.runs| && s.runs[k].phase.Quiescing? && DrainedOf(s, s.runs[k]) == Some(err)
    ensures After(s, [Coordinate(k, false), Coordinate(k, false), Coordinate(k, false), Coordinate(k, detaching)])
         == Put(s, k, Finished(err || detaching))
  {
    hide Step, After;
    var e := [Coordinate(k, false), Coordinate(k, false), Coordinate(k, false), Coordinate(k, detaching)];
    assert Put(s, k, Quiescing) == s;
    CoordinateStep(s, k, Quiescing, false, ClosingCache(err));
    CoordinateStep(s, k, ClosingCache(err), false, Phase.Waiting(err));
    CoordinateStep(s, k, Phase.Waiting(err), false, Detaching(err));
    CoordinateStep(s, k, Detaching(err), detaching, Finished(err || detaching));
    hide Put, Advance, DrainedOf;
    Unfolds(s, e);
    Unfolds(Put(s, k, ClosingCache(err)), e[1..]);
    Unfolds(Put(s, k, Phase.Waiting(err)), e[2..]);
    Unfolds(Put(s, k, Detaching(err)), e[3..]);
  }

  // A generation fails exactly if its drain failed or the detaching of its dependencies did.
  lemma {:induction false} GenerationFinishes(s: State, k: nat, q: nat, err: bool, detaching: bool)
    requires ActiveIn(s) && k < |s.runs| && s.runs[k].phase.Quiescing? && s.runs[k].quiesce == Some(q)
    requires q < |s.quiesces| && !s.quiesces[q].done
    ensures After(s, Generation(k, q, err, detaching))
         == s.(quiesces := s.quiesces[q := Quiesce(s.quiesces[q].server, true, true, err)],
               runs := s.runs[k := s.runs[k].(phase := Finished(err || detaching))])
  {
    var e := Generation(k, q, err, detaching);
    DrainSteps(s, k, q, err);
    var s1 := Step(s, e[0]);
    var s2 := Step(s1, e[1]);
    CoordinatorFinishes(s2, k, err, detaching);
    hide Step, After;
    Unfolds(s, e);
    Unfolds(s1, e[1..]);
    assert e[1..][1..] == [Coordinate(k, false), Coordinate(k, false), Coordinate(k, false), Coordinate(k, detaching)];
  }

  function Outcome(failed: bool, err: bool): Control {
    if failed then ControlDone(true, false) else ControlDone(err, true)
  }

  // The run `k` with its control plane like this.
  function Controlled(s: State, k: nat, control: Control): State
    requires k < |s.runs|
  {
    s.(runs := s.runs[k := s.runs[k].(control := Some(control))])
  }

  lemma ControlStep(s: State, k: nat, from: Control, err: bool, to: Control)
    requires ActiveIn(s) && k < |s.runs| && AdvanceControl(s.runs[k].(control := Some(from)), err).control == Some(to)
    ensures ActiveIn(Controlled(s, k, from)) && Step(Controlled(s, k, from), CoordinateControl(k, err)) == Controlled(s, k, to)
  {
  }

  // The control plane is stopped if the generation succeeded, and the process is finalised.
  lemma {:induction false} ControlFinishes(s: State, k: nat, err: bool)
    requires ActiveIn(s) && k < |s.runs| && Over(s.runs[k]) && s.runs[k].process && s.runs[k].control == Some(Pending) && !s.runs[k].finalized
    ensures var t := After(s, [CoordinateControl(k, err), CoordinateControl(k, err), Finalize(k)]);
            && t.runs == s.runs[k := s.runs[k].(control := Some(Outcome(s.runs[k].phase.err, err)), finalized := true)]
            && t.server.None? && t.quiescing.None? && !t.controlPlane && t.finalizations == s.finalizations + 1
            && t.stopping == s.stopping && t.active == s.active && t.quiesces == s.quiesces
  {
    hide After;
    var failed, e := s.runs[k].phase.err, [CoordinateControl(k, err), CoordinateControl(k, err), Finalize(k)];
    var between := if failed then ControlDone(true, false) else Stopping;
    assert Controlled(s, k, Pending) == s;
    ControlStep(s, k, Pending, err, between);
    ControlStep(s, k, between, err, Outcome(failed, err));
    FinalStep(Controlled(s, k, Outcome(failed, err)), k);
    hide Step, AdvanceControl, Outcome;
    Unfolds(s, e);
    Unfolds(Controlled(s, k, between), e[1..]);
    Unfolds(Controlled(s, k, Outcome(failed, err)), e[2..]);
  }

  lemma FinalStep(s: State, k: nat)
    requires ActiveIn(s) && k < |s.runs| && Over(s.runs[k]) && s.runs[k].process && !s.runs[k].finalized
    requires s.runs[k].control.Some? && s.runs[k].control.value.ControlDone?
    ensures Step(s, Finalize(k)) == s.(runs := s.runs[k := s.runs[k].(finalized := true)], server := None, quiescing := None,
                                       controlPlane := false, finalizations := s.finalizations + 1)
  {
  }

  lemma {:induction false} AfterJoins(s: State, a: seq<Event>, b: seq<Event>)
    requires ActiveIn(s)
    ensures ActiveIn(After(s, a)) && After(s, a + b) == After(After(s, a), b)
    decreases |a|
  {
    if a == [] {
      assert a + b == b;
    } else {
      Unfolds(s, a);
      Unfolds(s, a + b);
      assert (a + b)[1..] == a[1..] + b;
      hide Step;
      AfterJoins(Step(s, a[0]), a[1..], b);
    }
  }

  lemma StopOpens(s: State)
    requires s.active.None? && s.server.Some? && s.quiescing.None?
    ensures var t := Step(s, Stop);
            t == s.(stopping := true, quiesces := s.quiesces + [Quiesce(s.server.value, false, false, false)], quiescing := Some(|s.quiesces|),
                    runs := s.runs + [Run(s.server, Some(|s.quiesces|), Quiescing, true, Some(Pending), false)], active := Some(|s.runs|))
  {
  }

  // A process stop of a running generation drains and detaches it, stops the control plane exactly if that succeeded,
  // and drops every reference once.
  lemma {:induction false} ProcessStopFinishes(s: State, drain: bool, detaching: bool, control: bool)
    requires s.active.None? && s.server.Some? && s.quiescing.None?
    ensures var k, q := |s.runs|, |s.quiesces|;
            var t := After(s, [Stop] + (Generation(k, q, drain, detaching)
                                        + [CoordinateControl(k, control), CoordinateControl(k, control), Finalize(k)]));
            && t.stopping && t.server.None? && t.quiescing.None? && !t.controlPlane && t.finalizations == s.finalizations + 1
            && t.quiesces == s.quiesces + [Quiesce(s.server.value, true, true, drain)]
            && t.runs == s.runs + [Run(s.server, Some(q), Finished(drain || detaching), true,
                                       Some(if drain || detaching then ControlDone(true, false) else ControlDone(control, true)), true)]
  {
    var k, q := |s.runs|, |s.quiesces|;
    var last := [CoordinateControl(k, control), CoordinateControl(k, control), Finalize(k)];
    var events := [Stop] + (Generation(k, q, drain, detaching) + last);
    StopOpens(s);
    var s1 := Step(s, Stop);
    hide Step, After;
    GenerationFinishes(s1, k, q, drain, detaching);
    var s2 := After(s1, Generation(k, q, drain, detaching));
    ControlFinishes(s2, k, control);
    Unfolds(s, events);
    assert events[1..] == Generation(k, q, drain, detaching) + last;
    AfterJoins(s1, Generation(k, q, drain, detaching), last);
  }

  // Start runs only before any stop, without a current generation and when enabled; it then has the control plane
  // running whether or not a generation could be assembled, and a new generation has its own number and no drain yet.
  lemma StartExactly(s: State, enabled: bool, works: bool)
    requires ActiveIn(s)
    ensures var t := Step(s, Start(enabled, works));
            var starts := enabled && !s.stopping && s.server.None?;
            && t == s.(controlPlane := t.controlPlane, server := t.server, nextServer := t.nextServer, quiescing := t.quiescing)
            && t.controlPlane == (starts || s.controlPlane)
            && (if starts && works then t.server == Some(s.nextServer) && t.nextServer == s.nextServer + 1 && t.quiescing.None?
                else t.server == s.server && t.nextServer == s.nextServer && t.quiescing == s.quiescing)
  {
  }

  // A reload that stops waiting leaves its generation running; one whose generation succeeded restarts at most once.
  lemma ReloaderLeaves(s: State, works: bool)
    requires ActiveIn(s) && !s.reloader.Idle?
    ensures s.reloader.Joined? ==> Step(s, ReloadGivesUp) == s.(reloader := Idle)
    ensures s.reloader.Cleared? ==>
              var t := Step(s, Restart(works));
              && t.reloader.Idle? && t.runs == s.runs && t.active == s.active && t.stopping == s.stopping
              && (t.server != s.server <==> works && !s.stopping && s.server.None?)
  {
  }
}
