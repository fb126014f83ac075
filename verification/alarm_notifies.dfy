// The delivery loop of one claim, run in place on its target list.
module AlarmNotifies {
  import opened AlarmOutbox

  // How a worker ends, given for each target the dialog's answer and whether the checkpoint held.
  function Finished(w: Worker, replies: seq<Reply>, kept: seq<bool>): Worker
    requires |replies| == |kept| == |w.targets|
    decreases Turns(w)
  {
    match w
    case Working(_, _, i, _, _) => Finished(if Waiting(w) then Answered(w, replies[i]) else Skip(w), replies, kept)
    case Saving(_, _, i, _, _, _) => Finished(Saved(w, i < |kept| && kept[i]), replies, kept)
    case _ => w
  }

  function Turns(w: Worker): nat {
    match w
    case Working(_, targets, i, _, _) => if i <= |targets| then 2 * (|targets| - i) + 2 else 2
    case Saving(_, targets, i, _, _, _) => if i <= |targets| then 2 * (|targets| - i) + 1 + (if i == |targets| then 2 else 0) else 3
    case _ => 0
  }

  // One turn of the loop on a worker, whatever the loop's variables hold.
  function Turned(w: Worker, reply: Reply): Worker
    requires w.Working? && w.i < |w.targets|
  {
    if Waiting(w) then
      var state := if reply.Accepted? then Delivered else if reply.Rejected? then Revoked else Unsent;
      Working(w.attempts, w.targets[w.i := w.targets[w.i].(state := state)], w.i + 1,
              w.retry || reply.Transient?, w.revoked || reply.Rejected?)
    else Working(w.attempts, w.targets, w.i + 1, w.retry, w.revoked || w.targets[w.i].state.Revoked?)
  }

  lemma FinishedTurn(w: Worker, replies: seq<Reply>, kept: seq<bool>)
    requires |replies| == |kept| == |w.targets| && w.Working? && w.i < |w.targets|
    ensures var reply := replies[w.i];
            Finished(w, replies, kept)
            == if Waiting(w) && !reply.Transient? && !kept[w.i] then Closing(w.attempts, w.targets, RetryLater)
               else Finished(Turned(w, reply), replies, kept)
  {
    if Waiting(w) && !replies[w.i].Transient? {
      var saving := Answered(w, replies[w.i]);
      assert Finished(w, replies, kept) == Finished(saving, replies, kept) == Finished(Saved(saving, kept[w.i]), replies, kept);
    } else if Waiting(w) {
      assert w.targets[w.i := w.targets[w.i].(state := Unsent)] == w.targets;
    }
  }

  lemma FinishedEnd(w: Worker, replies: seq<Reply>, kept: seq<bool>)
    requires |replies| == |kept| == |w.targets| && w.Working? && w.i == |w.targets|
    ensures Finished(w, replies, kept)
            == Closing(w.attempts, w.targets, if w.retry then RetryLater else if w.revoked then GiveUp else Finish)
  {
    assert Finished(w, replies, kept) == Finished(Skip(w), replies, kept) == Skip(w);
  }

  // An unsent target takes its dialog's final answer; any other one stays.
  predicate Marked(before: Target, after: Target, reply: Reply) {
    && after.id == before.id
    && after.state == if before.state != Unsent || reply.Transient? then before.state else if reply.Accepted? then Delivered else Revoked
  }

  // How far the loop comes from target `i`: to the end, or just past the first target whose checkpoint is lost.
  function Reached(targets: seq<Target>, replies: seq<Reply>, kept: seq<bool>, i: nat): nat
    requires |replies| == |kept| == |targets| && i <= |targets|
    decreases |targets| - i
  {
    if i == |targets| then i
    else if targets[i].state.Unsent? && !replies[i].Transient? && !kept[i] then i + 1
    else Reached(targets, replies, kept, i + 1)
  }

  predicate MarkedUpTo(before: seq<Target>, after: seq<Target>, replies: seq<Reply>, n: nat) {
    && n <= |before| == |after| == |replies|
    && (forall k :: 0 <= k < n ==> Marked(before[k], after[k], replies[k]))
    && (forall k :: n <= k < |before| ==> after[k] == before[k])
  }

  lemma MarkedTurn(before: seq<Target>, w: Worker, replies: seq<Reply>)
    requires w.Working? && w.i < |w.targets| && MarkedUpTo(before, w.targets, replies, w.i)
    ensures MarkedUpTo(before, Turned(w, replies[w.i]).targets, replies, w.i + 1)
  {
  }

  // The target under the cursor is still the one of the list that the claim began with.
  lemma Unmarked(before: seq<Target>, after: seq<Target>, replies: seq<Reply>, n: nat)
    requires MarkedUpTo(before, after, replies, n) && n < |before|
    ensures after[n] == before[n]
  {
  }

  method DeliverAlarm(attempts: nat, targets: array<Target>, replies: seq<Reply>, kept: seq<bool>) returns (verdict: Verdict)
    requires |replies| == |kept| == targets.Length
    modifies targets
    ensures var end := Finished(Begin(attempts, old(targets[..])), replies, kept); end.Closing? && end.verdict == verdict
    ensures MarkedUpTo(old(targets[..]), targets[..], replies, if attempts > 8 then 0 else Reached(old(targets[..]), replies, kept, 0))
  {
    ghost var first := targets[..];
    assert MarkedUpTo(first, first, replies, 0);
    if attempts > MAX_ATTEMPTS {
      return RetryLater;
    }
    if targets.Length == 0 {
      return GiveUp;
    }
    var retry, revoked := false, false;
    var i := 0;
    ghost var begun := Finished(Begin(attempts, first), replies, kept);
    hide Finished, Begin, MarkedUpTo;
    while i < targets.Length
      invariant 0 <= i <= targets.Length
      invariant Finished(Working(attempts, targets[..], i, retry, revoked), replies, kept) == begun
      invariant MarkedUpTo(first, targets[..], replies, i)
      invariant Reached(first, replies, kept, i) == Reached(first, replies, kept, 0)
    {
      ghost var w := Working(attempts, targets[..], i, retry, revoked);
      FinishedTurn(w, replies, kept);
      MarkedTurn(first, w, replies);
      Unmarked(first, targets[..], replies, i);
      if targets[i].state.Delivered? {
        i := i + 1;
        continue;
      }
      if targets[i].state.Revoked? {
        revoked := true;
        i := i + 1;
        continue;
      }
      if replies[i].Transient? {
        assert Turned(w, replies[i]).targets == w.targets;
        retry := true;
        i := i + 1;
        continue;
      }
      if replies[i].Accepted? {
        targets[i] := targets[i].(state := Delivered);
      } else {
        targets[i] := targets[i].(state := Revoked);
        revoked := true;
      }
      assert targets[..] == Turned(w, replies[i]).targets;
      if !kept[i] {
        return RetryLater;
      }
      i := i + 1;
    }
    FinishedEnd(Working(attempts, targets[..], i, retry, revoked), replies, kept);
    verdict := if retry then RetryLater else if revoked then GiveUp else Finish;
  }

  // A target whose NOTIFY was recorded as sent, before this claim or by it.
  predicate RecordedSent(t: Target, reply: Reply, kept: bool) {
    t.state.Delivered? || (t.state.Unsent? && reply.Accepted? && kept)
  }

  lemma {:induction false} FinishedFrom(w: Worker, replies: seq<Reply>, kept: seq<bool>)
    requires |replies| == |kept| == |w.targets| && w.Working? && w.i <= |w.targets|
    ensures var end := Finished(w, replies, kept);
            end.Closing? &&
            (end.verdict.Finish? <==>
             !w.retry && !w.revoked && forall k :: w.i <= k < |w.targets| ==> RecordedSent(w.targets[k], replies[k], kept[k]))
    decreases |w.targets| - w.i
  {
    if w.i < |w.targets| {
      var next := if Waiting(w) then Answered(w, replies[w.i]) else Skip(w);
      if next.Saving? {
        var after := Saved(next, kept[w.i]);
        assert Finished(w, replies, kept) == Finished(after, replies, kept);
        if kept[w.i] {
          FinishedFrom(after, replies, kept);
        }
      } else {
        FinishedFrom(next, replies, kept);
      }
    } else {
      assert Finished(w, replies, kept) == Finished(Skip(w), replies, kept) == Skip(w);
    }
  }

  // The delivery may be completed exactly when every dialog is recorded sent.
  lemma {:induction false} FinishesExactly(attempts: nat, targets: seq<Target>, replies: seq<Reply>, kept: seq<bool>)
    requires |replies| == |kept| == |targets|
    ensures var end := Finished(Begin(attempts, targets), replies, kept);
            end.Closing? &&
            (end.verdict.Finish? <==>
             attempts <= MAX_ATTEMPTS && targets != [] && forall k :: 0 <= k < |targets| ==> RecordedSent(targets[k], replies[k], kept[k]))
  {
    if attempts <= MAX_ATTEMPTS && targets != [] {
      FinishedFrom(Begin(attempts, targets), replies, kept);
    }
  }
}
