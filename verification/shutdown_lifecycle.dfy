// The package's lifecycle variables: each method is one section under the lifecycle mutex,
// proved to act as its step in ShutdownGenerations.
module ShutdownLifecycle {
  import opened Wrappers
  import opened ShutdownGenerations

  class Lifecycle {
    var stopping: bool
    var server: Option<nat>
    var nextServer: nat
    var quiescing: Option<nat>
    var active: Option<nat>
    var runs: seq<Run>
    var quiesces: seq<Quiesce>
    var reloader: Reloader
    var controlPlane: bool
    var finalizations: nat

    function Value(): State
      reads this
    {
      State(stopping, server, nextServer, quiescing, active, runs, quiesces, reloader, controlPlane, finalizations)
    }

    constructor ()
      ensures Value() == Init()
    {
      stopping, server, nextServer, quiescing, active := false, None, 0, None, None;
      runs, quiesces, reloader, controlPlane, finalizations := [], [], Idle, false, 0;
    }

    // clearSIPShutdownGlobals
    method ClearSIP()
      modifies this`server, this`quiescing
      ensures Value() == Clear(old(Value())) && server.None? && quiescing.None?
    {
      server := None;
      quiescing := None;
    }

    // newBootstrapShutdownRun, stored as the active run.
    method Open(process: bool) returns (run: nat)
      modifies this`quiesces, this`quiescing, this`runs, this`active
      ensures Value() == NewRun(old(Value()), process) && active == Some(run)
      ensures run == |old(runs)| && |runs| == run + 1 && runs[..run] == old(runs)
      ensures runs[run].server == server && runs[run].phase.Quiescing? && !runs[run].finalized && runs[run].process == process
      ensures runs[run].control == if process then Some(Pending) else None
      ensures server.None? ==> runs[run].quiesce.None? && quiesces == old(quiesces)
      ensures server.Some? ==> runs[run].quiesce == quiescing && quiescing.Some?
      ensures server.Some? && old(quiescing).None? ==>
                quiescing.value == |old(quiesces)| && quiesces == old(quiesces) + [Quiesce(server.value, false, false, false)]
      ensures server.Some? && old(quiescing).Some? ==> quiescing == old(quiescing) && quiesces == old(quiesces)
    {
      if server.Some? && quiescing.None? {
        quiescing := Some(|quiesces|);
        quiesces := quiesces + [Quiesce(server.value, false, false, false)];
      }
      var quiesce := quiescing;
      if server.None? {
        quiesce := None;
      }
      run := |runs|;
      var control: Option<Control> := None;
      if process {
        control := Some(Pending);
      }
      runs := runs + [Run(server, quiesce, Quiescing, process, control, false)];
      active := Some(run);
    }

    // StopContext up to its waits: the run to wait for.
    method BeginStop() returns (run: nat)
      requires ActiveIn(Value())
      modifies this
      ensures Value() == DoStop(old(Value()))
      ensures stopping && active == Some(run) && run < |runs| && runs[run].process && runs[run].control.Some?
      ensures var reloaded := old(active).Some? && !old(runs)[old(active).value].process && Succeeded(old(runs)[old(active).value]);
              if old(active).None? || reloaded then
                && run == |old(runs)| && runs[..run] == old(runs) && runs[run].server == server && runs[run].phase.Quiescing?
                && server == (if reloaded then None else old(server))
              else
                && run == old(active).value && server == old(server) && |runs| == |old(runs)|
                && runs[run].server == old(runs)[run].server && runs[run].phase == old(runs)[run].phase
                && (old(runs)[run].control.Some? ==> runs[run].control == old(runs)[run].control)
    {
      stopping := true;
      if active.Some? && Over(runs[active.value]) {
        if !runs[active.value].process && Succeeded(runs[active.value]) {
          ClearSIP();
          active := None;
        }
      }
      if active.None? {
        run := Open(true);
        return;
      }
      run := active.value;
      runs := runs[run := Promote(runs[run])];
    }

    // reloadSIPGeneration, with the reload mutex held: the run to join, or a refusal.
    method BeginReload() returns (run: Option<nat>)
      requires ActiveIn(Value()) && reloader.Idle?
      modifies this
      ensures Value() == DoReload(old(Value()))
      ensures run.Some? <==> !stopping && (old(active).None? || !Over(old(runs)[old(active).value]) || Succeeded(old(runs)[old(active).value]))
      ensures run.Some? ==> active == run && reloader == Joined(run.value)
      ensures run.None? ==> Value() == old(Value())
      ensures run.Some? ==>
                var over := old(active).Some? && Over(old(runs)[old(active).value]);
                if old(active).None? || over then
                  && run.value == |old(runs)| && |runs| == run.value + 1 && runs[..run.value] == old(runs)
                  && runs[run.value].server == server && !runs[run.value].process && server == (if over then None else old(server))
                else run == old(active) && runs == old(runs) && server == old(server)
    {
      if stopping {
        return None;
      }
      if active.Some? && Over(runs[active.value]) {
        if !Succeeded(runs[active.value]) {
          return None;
        }
        ClearSIP();
        active := None;
      }
      if active.Some? {
        run := active;
      } else {
        var created := Open(false);
        run := Some(created);
      }
      reloader := Joined(run.value);
    }

    // finishReloadGeneration
    method EndReload(run: nat)
      requires run < |runs| && reloader == Joined(run) && Over(runs[run])
      modifies this
      ensures Value() == DoFinishReload(old(Value()))
      ensures runs == old(runs) && reloader == (if Succeeded(runs[run]) then Cleared else Idle)
      ensures var drops := Succeeded(runs[run]) && !runs[run].process;
              && server == (if drops then None else old(server))
              && active == (if drops && old(active) == Some(run) then None else old(active))
    {
      var succeeded := Succeeded(runs[run]);
      reloader := if succeeded then Cleared else Idle;
      if !succeeded || runs[run].process {
        return;
      }
      ClearSIP();
      if active == Some(run) {
        active := None;
      }
    }

    // QuiesceRequests up to its wait: the drain to wait for, if there is a server.
    method BeginQuiesce() returns (drain: Option<nat>)
      requires ActiveIn(Value()) && (quiescing.Some? ==> quiescing.value < |quiesces|)
      modifies this
      ensures Value() == DoQuiesceRequests(old(Value()))
      ensures stopping && server == old(server) && active == old(active) && runs == old(runs)
      ensures var target := if server.Some? then server else if active.Some? then runs[active.value].server else None;
              && (drain.Some? <==> target.Some?)
              && (drain.Some? ==> drain == quiescing && drain.value < |quiesces| && quiesces[drain.value].started)
              && (drain.Some? && old(quiescing).Some? ==> drain == old(quiescing))
              && (drain.Some? && old(quiescing).None? ==> drain.value == |old(quiesces)| && quiesces[drain.value].server == target.value)
    {
      stopping := true;
      var target := server;
      if target.None? && active.Some? {
        target := runs[active.value].server;
      }
      if target.None? {
        return None;
      }
      if quiescing.None? {
        quiescing := Some(|quiesces|);
        quiesces := quiesces + [Quiesce(target.value, false, false, false)];
      }
      drain := quiescing;
      if !quiesces[drain.value].started {
        quiesces := quiesces[drain.value := quiesces[drain.value].(started := true)];
      }
    }

    // finalizeProcessShutdown; it reports whether this call tore the process down.
    method FinalizeProcess(run: nat) returns (done: bool)
      requires run < |runs|
      modifies this
      ensures Value() == DoFinalize(old(Value()), run)
      ensures done <==>
                var r := old(runs)[run];
                Over(r) && r.process && r.control.Some? && r.control.value.ControlDone? && !r.finalized
      ensures done ==>
                && finalizations == old(finalizations) + 1 && server.None? && quiescing.None? && !controlPlane
                && runs == old(runs)[run := old(runs)[run].(finalized := true)] && active == old(active)
      ensures !done ==> Value() == old(Value())
    {
      var r := runs[run];
      if !Over(r) {
        return false;
      }
      if !r.process || r.control.None? || !r.control.value.ControlDone? {
        return false;
      }
      if r.finalized {
        return false;
      }
      runs := runs[run := r.(finalized := true)];
      ClearSIP();
      controlPlane := false;
      finalizations := finalizations + 1;
      return true;
    }
  }
}
