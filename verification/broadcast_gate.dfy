// The admission counter of the broadcast runtime. Shutdown waits for `done` before it runs
// recovery, so recovery after a shutdown is alone with the tables.
module BroadcastGate {
  datatype Gate = Gate(active: nat, closed: bool, sweepStarted: bool, doneClosed: bool, closings: nat)

  // `done` is closed exactly when nothing is running and nothing can start, and only once.
  predicate Valid(g: Gate) {
    && (g.doneClosed <==> g.closed && g.active == 0)
    && g.closings == (if g.doneClosed then 1 else 0)
  }

  function CloseIfIdle(g: Gate): Gate {
    if g.closed && g.active == 0 && !g.doneClosed then g.(doneClosed := true, closings := g.closings + 1) else g
  }

  function Acquired(g: Gate): Gate {
    if g.closed then g else g.(active := g.active + 1)
  }

  function Released(g: Gate): Gate {
    if g.active == 0 then g else CloseIfIdle(g.(active := g.active - 1))
  }

  function SweeperStarted(g: Gate): Gate {
    if g.closed || g.sweepStarted then g else g.(sweepStarted := true, active := g.active + 1)
  }

  function ShutDown(g: Gate): Gate {
    CloseIfIdle(g.(closed := true))
  }

  class Runtime {
    var active: nat
    var closed: bool
    var sweepStarted: bool
    var doneClosed: bool
    ghost var closings: nat

    ghost function View(): Gate
      reads this
    {
      Gate(active, closed, sweepStarted, doneClosed, closings)
    }

    constructor ()
      ensures View() == Gate(0, false, false, false, 0)
    {
      active, closed, sweepStarted, doneClosed, closings := 0, false, false, false, 0;
    }

    method Acquire() returns (ok: bool)
      modifies this
      ensures View() == Acquired(old(View())) && ok == !old(closed)
      ensures active == (if ok then old(active) + 1 else old(active)) && closed == old(closed) && doneClosed == old(doneClosed)
    {
      if closed { return false; }
      active := active + 1;
      return true;
    }

    method CloseDoneIfIdle()
      modifies this
      ensures View() == CloseIfIdle(old(View()))
    {
      if closed && active == 0 && !doneClosed {
        doneClosed, closings := true, closings + 1;
      }
    }

    method Release()
      requires active > 0
      modifies this
      ensures View() == Released(old(View()))
      ensures active == old(active) - 1 && closed == old(closed) && doneClosed == (old(doneClosed) || (closed && active == 0))
    {
      active := active - 1;
      CloseDoneIfIdle();
    }

    method StartSweeper() returns (started: bool)
      modifies this
      ensures View() == SweeperStarted(old(View())) && started == (!old(closed) && !old(sweepStarted))
      ensures active == (if started then old(active) + 1 else old(active)) && sweepStarted == (started || old(sweepStarted))
    {
      if closed || sweepStarted { return false; }
      sweepStarted, active := true, active + 1;
      return true;
    }

    method BeginShutdown()
      modifies this
      ensures View() == ShutDown(old(View()))
      ensures closed && active == old(active) && doneClosed == (old(doneClosed) || active == 0)
    {
      closed := true;
      CloseDoneIfIdle();
    }
  }

  datatype Call = CallAcquire | CallRelease | CallStartSweeper | CallShutdown

  function Step(g: Gate, c: Call): Gate {
    match c
    case CallAcquire => Acquired(g)
    case CallRelease => Released(g)
    case CallStartSweeper => SweeperStarted(g)
    case CallShutdown => ShutDown(g)
  }

  function Run(g: Gate, calls: seq<Call>): Gate
    decreases |calls|
  {
    if calls == [] then g else Run(Step(g, calls[0]), calls[1..])
  }

  // Once `done` is closed, nothing ever runs again, and `done` is never closed a second time.
  lemma {:induction false} DrainedForEver(g: Gate, calls: seq<Call>)
    requires Valid(g)
    ensures Valid(Run(g, calls))
    ensures g.doneClosed ==> Run(g, calls).doneClosed && Run(g, calls).active == 0
    decreases |calls|
  {
    if calls == [] {
    } else {
      DrainedForEver(Step(g, calls[0]), calls[1..]);
    }
  }
}
