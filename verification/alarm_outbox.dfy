// One queued alarm with its frozen list of NOTIFY dialogs, and any number of delivery
// workers that claim it under a lease, send to each dialog in turn and checkpoint the list.
// Every statement carries the clock reading that its caller took, which may be older than
// the moment at which the statement runs.
module AlarmOutbox {
  import opened Wrappers

  const SECOND: int := 1_000_000_000
  const LEASE := 15 * SECOND
  const MAX_ATTEMPTS: nat := 8

  datatype RowState = Pending | Leased | Sent | Failed

  datatype TargetState = Unsent | Delivered | Revoked

  datatype Target = Target(id: string, state: TargetState)

  datatype Row = Row(state: RowState, owner: Option<nat>, leaseUntil: int, attempts: nat, nextAttemptAt: int, targets: seq<Target>)

  // ---- the conditional statements of cascade/repository/repository.go:115-168 ----

  predicate Claimable(row: Row, now: int) {
    (row.state.Pending? && row.nextAttemptAt <= now) || (row.state.Leased? && row.leaseUntil <= now)
  }

  predicate Owned(row: Row, token: nat, now: int) {
    row.state.Leased? && row.owner == Some(token) && now < row.leaseUntil
  }

  function Claim(row: Row, seenAttempts: nat, token: nat, now: int): Row {
    if row.attempts == seenAttempts && Claimable(row, now)
    then row.(state := Leased, owner := Some(token), leaseUntil := now + LEASE, attempts := row.attempts + 1)
    else row
  }

  function Checkpoint(row: Row, token: nat, now: int, targets: seq<Target>): Row {
    if Owned(row, token, now) then row.(targets := targets) else row
  }

  function Complete(row: Row, token: nat, now: int): Row {
    if Owned(row, token, now) then row.(state := Sent, owner := None) else row
  }

  function PowerOfTwo(n: nat): nat {
    if n == 0 then 1 else 2 * PowerOfTwo(n - 1)
  }

  // dispatchAlarmDeliveryOnce backs off by 1s, 2s, 4s ... for at most 1024s.
  function Backoff(attempts: nat): int {
    SECOND * PowerOfTwo(if attempts == 0 then 0 else if attempts - 1 > 10 then 10 else attempts - 1)
  }

  function Retry(row: Row, token: nat, now: int, next: int, maxAttempts: nat): Row {
    if Owned(row, token, now)
    then row.(state := if row.attempts >= maxAttempts then Failed else Pending, owner := None, nextAttemptAt := next)
    else row
  }

  // ---- workers ----

  datatype Verdict = Finish | RetryLater | GiveUp

  // A worker keeps its own copy of the target list: the one it selected, with its own results.
  datatype Worker =
    | Selected(now: int, attempts: nat, targets: seq<Target>)
    | Working(attempts: nat, targets: seq<Target>, i: nat, retry: bool, revoked: bool)
    | Saving(attempts: nat, targets: seq<Target>, i: nat, retry: bool, revoked: bool, outcome: TargetState)
    | Closing(attempts: nat, targets: seq<Target>, verdict: Verdict)

  datatype Reply = Accepted | Rejected | Transient

  predicate Waiting(w: Worker) {
    w.Working? && w.i < |w.targets| && w.targets[w.i].state.Unsent?
  }

  // The start of a claimed delivery.
  function Begin(attempts: nat, targets: seq<Target>): Worker {
    if attempts > MAX_ATTEMPTS then Closing(attempts, targets, RetryLater)
    else if targets == [] then Closing(attempts, targets, GiveUp)
    else Working(attempts, targets, 0, false, false)
  }

  // deliverAlarmNotifies skips recorded targets and, at the end of the list, decides.
  function Skip(w: Worker): Worker
    requires w.Working? && !Waiting(w)
  {
    if w.i >= |w.targets| then
      Closing(w.attempts, w.targets, if w.retry then RetryLater else if w.revoked then GiveUp else Finish)
    else Working(w.attempts, w.targets, w.i + 1, w.retry, w.revoked || w.targets[w.i].state.Revoked?)
  }

  function Answered(w: Worker, reply: Reply): Worker
    requires Waiting(w)
  {
    match reply
    case Accepted => Saving(w.attempts, w.targets, w.i, w.retry, w.revoked, Delivered)
    case Rejected => Saving(w.attempts, w.targets, w.i, w.retry, true, Revoked)
    case Transient => Working(w.attempts, w.targets, w.i + 1, true, w.revoked)
  }

  function Result(w: Worker): seq<Target>
    requires w.Saving?
  {
    if w.i < |w.targets| then w.targets[w.i := w.targets[w.i].(state := w.outcome)] else w.targets
  }

  function Saved(w: Worker, ok: bool): Worker
    requires w.Saving?
  {
    if ok then Working(w.attempts, Result(w), w.i + 1, w.retry, w.revoked)
    else Closing(w.attempts, w.targets, RetryLater)
  }

  // One NOTIFY to dialog number `target`, sent under claim number `attempt`.
  datatype Sending = Sending(worker: nat, target: nat, attempt: nat, accepted: bool)

  // A failing write was either not applied or applied with its answer lost.
  datatype Fault = NoFault | NotApplied | AnswerLost

  datatype System = System(row: Row, clock: int, next: nat, workers: map<nat, Worker>, wire: seq<Sending>, stale: bool)

  datatype Event =
    | Tick(clock: int)
    | Select(now: int)
    | ClaimRow(id: nat)
    | Refuse(id: nat, revoked: bool)
    | Proceed(id: nat)
    | Answer(id: nat, sent: bool, reply: Reply)
    | Save(id: nat, now: int, fault: Fault)
    | Close(id: nat, now: int, lost: bool)
    | Die(id: nat)

  datatype Fate = Keep | Become(worker: Worker) | End

  datatype Effect = Effect(row: Row, id: nat, fate: Fate, sent: Option<Sending>, stale: bool)

  function Init(targets: seq<string>, nextAttemptAt: int): System {
    System(Row(Pending, None, 0, 0, nextAttemptAt, seq(|targets|, i requires 0 <= i < |targets| => Target(targets[i], Unsent))),
           nextAttemptAt, 0, map[], [], false)
  }

  function Idle(s: System): Effect {
    Effect(s.row, s.next, Keep, None, false)
  }

  function Turn(s: System, id: nat, w: Worker): Effect {
    Effect(s.row, id, Become(w), None, false)
  }

  // The SELECT of ClaimAlarmDeliveries: advisory, and the only read of the target list.
  function DoSelect(s: System, now: int): Effect {
    if now <= s.clock && Claimable(s.row, now) then Turn(s, s.next, Selected(now, s.row.attempts, s.row.targets)) else Idle(s)
  }

  // The UPDATE. The list sent later is the selected one; `stale` records whether it differs from the row's.
  function DoClaim(s: System, id: nat): Effect {
    if id !in s.workers || !s.workers[id].Selected? then Idle(s)
    else
      var Selected(now, attempts, targets) := s.workers[id];
      if !(s.row.attempts == attempts && Claimable(s.row, now)) then Effect(s.row, id, End, None, false)
      else Effect(Claim(s.row, attempts, id, now), id, Become(Begin(attempts + 1, targets)), None, targets != s.row.targets)
  }

  // Platform gone, profile changed or binding revoked before the loop starts.
  function DoRefuse(s: System, id: nat, revoked: bool): Effect {
    if id !in s.workers || !s.workers[id].Working? || s.workers[id].i != 0 then Idle(s)
    else Turn(s, id, Closing(s.workers[id].attempts, s.workers[id].targets, if revoked then GiveUp else RetryLater))
  }

  function DoProceed(s: System, id: nat): Effect {
    if id !in s.workers || !s.workers[id].Working? || Waiting(s.workers[id]) then Idle(s)
    else Turn(s, id, Skip(s.workers[id]))
  }

  // deliverAlarmNotify: a rejection or an error may come before anything was sent.
  function DoAnswer(s: System, id: nat, sent: bool, reply: Reply): Effect {
    if id !in s.workers || !Waiting(s.workers[id]) || (reply.Accepted? && !sent) then Idle(s)
    else
      var w := s.workers[id];
      Turn(s, id, Answered(w, reply)).(sent := if sent then Some(Sending(id, w.i, w.attempts, reply.Accepted?)) else None)
  }

  function DoSave(s: System, id: nat, now: int, fault: Fault): Effect {
    if id !in s.workers || !s.workers[id].Saving? || now > s.clock then Idle(s)
    else
      var w := s.workers[id];
      Effect(if fault.NotApplied? then s.row else Checkpoint(s.row, id, now, Result(w)), id,
             Become(Saved(w, fault.NoFault? && Owned(s.row, id, now))), None, false)
  }

  function DoClose(s: System, id: nat, now: int, lost: bool): Effect {
    if id !in s.workers || !s.workers[id].Closing? || now > s.clock then Idle(s)
    else
      var Closing(attempts, _, verdict) := s.workers[id];
      var row :=
        if lost then s.row
        else match verdict
          case Finish => Complete(s.row, id, now)
          case RetryLater => Retry(s.row, id, now, now + Backoff(attempts), MAX_ATTEMPTS)
          case GiveUp => Retry(s.row, id, now, now + Backoff(attempts), 1);
      Effect(row, id, End, None, false)
  }

  function EffectOf(s: System, e: Event): Effect {
    match e
    case Tick(_) => Idle(s)
    case Select(now) => DoSelect(s, now)
    case ClaimRow(id) => DoClaim(s, id)
    case Refuse(id, revoked) => DoRefuse(s, id, revoked)
    case Proceed(id) => DoProceed(s, id)
    case Answer(id, sent, reply) => DoAnswer(s, id, sent, reply)
    case Save(id, now, fault) => DoSave(s, id, now, fault)
    case Close(id, now, lost) => DoClose(s, id, now, lost)
    case Die(id) => Effect(s.row, id, End, None, false)
  }

  function Step(s: System, e: Event): System {
    var f := EffectOf(s, e);
    System(
      f.row,
      if e.Tick? && e.clock > s.clock then e.clock else s.clock,
      if e.Select? then s.next + 1 else s.next,
      match f.fate
      case Keep => s.workers
      case Become(w) => s.workers[f.id := w]
      case End => s.workers - {f.id},
      if f.sent.Some? then s.wire + [f.sent.value] else s.wire,
      s.stale || f.stale)
  }

  function Run(s: System, events: seq<Event>): System
    decreases |events|
  {
    if events == [] then s else Run(Step(s, events[0]), events[1..])
  }

  // ---- fencing: every claim has its own number, and only the newest one can write ----

  predicate Claimed(w: Worker) {
    !w.Selected?
  }

  predicate Busy(w: Worker) {
    w.Working? || w.Saving?
  }

  ghost predicate Fenced(s: System) {
    && (forall id :: id in s.workers ==> id < s.next && s.workers[id].attempts <= s.row.attempts)
    && (s.row.owner.Some? ==> s.row.owner.value < s.next)
    && (forall id :: id in s.workers && s.row.owner == Some(id) ==>
          Claimed(s.workers[id]) && s.workers[id].attempts == s.row.attempts)
    && (forall a, b ::
          (a in s.workers && b in s.workers && Claimed(s.workers[a]) && Claimed(s.workers[b])
           && s.workers[a].attempts == s.workers[b].attempts) ==> a == b)
  }

  // A step opens a worker, wins a claim for one, or carries one on under its claim number;
  // only a claim changes the number or names an owner.
  lemma WorkerSource(s: System, e: Event)
    ensures var f := EffectOf(s, e);
            || (f.fate.Become? && e.Select? && f.id == s.next && f.row == s.row
                && f.fate.worker.Selected? && f.fate.worker.attempts == s.row.attempts)
            || (f.fate.Become? && f.id in s.workers && s.workers[f.id].Selected? && Claimed(f.fate.worker)
                && f.fate.worker.attempts == f.row.attempts == s.row.attempts + 1 && f.row.owner == Some(f.id))
            || (f.row.attempts == s.row.attempts && (f.row.owner == s.row.owner || f.row.owner == None)
                && (f.fate.Become? ==> f.id in s.workers && Claimed(s.workers[f.id]) && Claimed(f.fate.worker)
                                       && f.fate.worker.attempts == s.workers[f.id].attempts))
  {
  }

  lemma StepKeepsFenced(s: System, e: Event)
    requires Fenced(s)
    ensures Fenced(Step(s, e))
    ensures Step(s, e).row.attempts >= s.row.attempts
  {
    WorkerSource(s, e);
    hide EffectOf;
  }

  // ---- one send per claim number and dialog ----

  // No send of this claim number at or after the cursor.
  ghost predicate Unsaid(wire: seq<Sending>, attempt: nat, from: nat) {
    forall m :: m in wire && m.attempt == attempt ==> m.target < from
  }

  function Cursor(w: Worker): nat
    requires Busy(w)
  {
    if w.Working? then w.i else w.i + 1
  }

  ghost predicate Unspent(s: System) {
    forall id :: id in s.workers && Busy(s.workers[id]) ==>
      1 <= s.workers[id].attempts <= MAX_ATTEMPTS && Unsaid(s.wire, s.workers[id].attempts, Cursor(s.workers[id]))
  }

  ghost predicate SaidOnce(s: System) {
    && (forall m :: m in s.wire ==> 1 <= m.attempt <= MAX_ATTEMPTS && m.attempt <= s.row.attempts)
    && (forall x, y :: 0 <= x < y < |s.wire| && s.wire[x].target == s.wire[y].target ==>
          s.wire[x].attempt != s.wire[y].attempt)
  }

  // What a step may put on the wire.
  lemma SendSource(s: System, e: Event)
    ensures var f := EffectOf(s, e);
            f.sent.Some? ==>
              && f.id in s.workers && Waiting(s.workers[f.id]) && f.row == s.row && f.sent.value.worker == f.id
              && f.sent.value.target == s.workers[f.id].i && f.sent.value.attempt == s.workers[f.id].attempts
              && f.fate.Become? && Busy(f.fate.worker) && Cursor(f.fate.worker) == s.workers[f.id].i + 1
              && f.fate.worker.attempts == s.workers[f.id].attempts
  {
  }

  // Where a worker that may send comes from.
  lemma BusySource(s: System, e: Event)
    ensures var f := EffectOf(s, e);
            f.fate.Become? && Busy(f.fate.worker) ==>
              && f.id in s.workers
              && (s.workers[f.id].Selected? ==> f.fate.worker.attempts == s.row.attempts + 1 <= MAX_ATTEMPTS)
              && (Claimed(s.workers[f.id]) ==> Busy(s.workers[f.id]) && f.fate.worker.attempts == s.workers[f.id].attempts
                                               && Cursor(f.fate.worker) >= Cursor(s.workers[f.id]))
  {
  }

  lemma StepKeepsUnspent(s: System, e: Event)
    requires Fenced(s) && Unspent(s) && SaidOnce(s)
    ensures Unspent(Step(s, e))
  {
    SendSource(s, e);
    BusySource(s, e);
    hide EffectOf;
  }

  lemma StepKeepsSaidOnce(s: System, e: Event)
    requires Fenced(s) && Unspent(s) && SaidOnce(s)
    ensures SaidOnce(Step(s, e))
  {
    SendSource(s, e);
    StepKeepsFenced(s, e);
    hide EffectOf;
  }
}
