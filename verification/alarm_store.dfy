// The conditional statements on one alarm row, as the repository runs them.
module AlarmStore {
  import opened Wrappers
  import opened AlarmOutbox

  class DeliveryRow {
    var state: RowState
    var owner: Option<nat>
    var leaseUntil: int
    var attempts: nat
    var nextAttemptAt: int
    var targets: seq<Target>

    function Value(): Row
      reads this
    {
      Row(state, owner, leaseUntil, attempts, nextAttemptAt, targets)
    }

    constructor (targets: seq<Target>, now: int)
      ensures Value() == Row(Pending, None, 0, 0, now, targets)
    {
      state, owner, leaseUntil, attempts, nextAttemptAt := Pending, None, 0, 0, now;
      this.targets := targets;
    }

    // The UPDATE of ClaimAlarmDeliveries, for a candidate selected with `seenAttempts`.
    method ClaimDelivery(seenAttempts: nat, token: nat, now: int) returns (ok: bool)
      modifies this
      ensures Value() == Claim(old(Value()), seenAttempts, token, now)
      ensures ok <==> old(attempts) == seenAttempts
                      && ((old(state).Pending? && old(nextAttemptAt) <= now) || (old(state).Leased? && old(leaseUntil) <= now))
      ensures Value() == if ok then Row(Leased, Some(token), now + 15_000_000_000, seenAttempts + 1, old(nextAttemptAt), old(targets))
                         else old(Value())
      ensures ok ==> Owned(Value(), token, now) && attempts == old(attempts) + 1
    {
      if attempts != seenAttempts {
        return false;
      }
      if !(state.Pending? && nextAttemptAt <= now) && !(state.Leased? && leaseUntil <= now) {
        return false;
      }
      state, owner, leaseUntil, attempts := Leased, Some(token), now + LEASE, attempts + 1;
      return true;
    }

    method CheckpointDelivery(token: nat, now: int, list: seq<Target>) returns (ok: bool)
      modifies this`targets
      ensures Value() == Checkpoint(old(Value()), token, now, list) && ok == old(Owned(Value(), token, now))
      ensures ok <==> state.Leased? && owner == Some(token) && now < leaseUntil
      ensures targets == if ok then list else old(targets)
    {
      if !state.Leased? || owner != Some(token) || leaseUntil <= now {
        return false;
      }
      targets := list;
      return true;
    }

    method CompleteDelivery(token: nat, now: int) returns (ok: bool)
      modifies this`state, this`owner
      ensures Value() == Complete(old(Value()), token, now) && ok == old(Owned(Value(), token, now))
      ensures ok <==> old(state).Leased? && old(owner) == Some(token) && now < leaseUntil
      ensures if ok then state.Sent? && owner.None? else state == old(state) && owner == old(owner)
    {
      if !state.Leased? || owner != Some(token) || leaseUntil <= now {
        return false;
      }
      state, owner := Sent, None;
      return true;
    }

    // A retry with no attempts left ends the delivery.
    method RetryDelivery(token: nat, now: int, next: int, maxAttempts: nat) returns (ok: bool)
      modifies this`state, this`owner, this`nextAttemptAt
      ensures Value() == Retry(old(Value()), token, now, next, maxAttempts) && ok == old(Owned(Value(), token, now))
      ensures ok <==> old(state).Leased? && old(owner) == Some(token) && now < leaseUntil
      ensures ok ==> (state.Failed? <==> attempts >= maxAttempts) && (state.Pending? <==> attempts < maxAttempts)
      ensures ok ==> owner.None? && nextAttemptAt == next
      ensures !ok ==> Value() == old(Value())
    {
      if !state.Leased? || owner != Some(token) || leaseUntil <= now {
        return false;
      }
      if attempts >= maxAttempts {
        state := Failed;
      } else {
        state := Pending;
      }
      owner := None;
      nextAttemptAt := next;
      return true;
    }

    // The delay of dispatchAlarmDeliveryOnce: one second doubled for each earlier attempt, at most ten times.
    method RetryAt(now: int) returns (next: int)
      ensures next == now + Backoff(attempts)
      ensures next == now + 1_000_000_000 * DELAYS[if attempts < 11 then attempts else 11]
    {
      var shift := if attempts == 0 then 0 else if attempts - 1 > 10 then 10 else attempts - 1;
      var delay := SECOND;
      for i := 0 to shift
        invariant delay == SECOND * PowerOfTwo(i) && SECOND <= delay
      {
        delay := delay * 2;
      }
      BackoffTable(attempts);
      next := now + delay;
    }
  }

  // The seconds of waiting after an attempt, by its number; every later number waits like the last.
  const DELAYS: seq<int> := [1, 1, 2, 4, 8, 16, 32, 64, 128, 256, 512, 1024]

  lemma BackoffTable(attempts: nat)
    ensures Backoff(attempts) == 1_000_000_000 * DELAYS[if attempts < 11 then attempts else 11]
  {
    assert PowerOfTwo(1) == 2 && PowerOfTwo(2) == 4 && PowerOfTwo(3) == 8 && PowerOfTwo(4) == 16;
    assert PowerOfTwo(5) == 32 && PowerOfTwo(6) == 64 && PowerOfTwo(7) == 128;
    assert PowerOfTwo(8) == 256 && PowerOfTwo(9) == 512 && PowerOfTwo(10) == 1024;
  }
}
