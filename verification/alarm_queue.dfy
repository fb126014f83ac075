// Queuing an alarm: the dialogs it must reach are chosen once, when its delivery key is first
// stored, and a retransmission of the alarm finds that choice.
module AlarmQueue {
  import opened Wrappers
  import opened AlarmOutbox

  // `matches` stands for platform, event kind, configuration, profile and target of the subscription.
  datatype Dialog = Dialog(deliveryId: string, matches: bool, reason: bool, expires: int)

  predicate Eligible(d: Dialog, now: int) {
    d.matches && !d.reason && now < d.expires
  }

  // `minted` holds the new id that each dialog would be given, for uuid.NewString.
  function Named(d: Dialog, id: string): Dialog {
    if d.deliveryId == "" then d.(deliveryId := id) else d
  }

  predicate Listed(targets: seq<Target>, id: string) {
    exists k :: 0 <= k < |targets| && targets[k].id == id
  }

  predicate Offered(dialogs: seq<Dialog>, now: int, id: string) {
    exists k :: 0 <= k < |dialogs| && dialogs[k].matches && !dialogs[k].reason && now < dialogs[k].expires && dialogs[k].deliveryId == id
  }

  predicate Distinct(targets: seq<Target>) {
    forall i, j :: 0 <= i < j < |targets| ==> targets[i].id != targets[j].id
  }

  lemma ListedSnoc(targets: seq<Target>, t: Target)
    ensures forall id :: Listed(targets + [t], id) <==> Listed(targets, id) || id == t.id
    ensures Distinct(targets) && !Listed(targets, t.id) ==> Distinct(targets + [t])
  {
    forall id | Listed(targets, id) ensures Listed(targets + [t], id) {
      var k :| 0 <= k < |targets| && targets[k].id == id;
      assert (targets + [t])[k].id == id;
    }
    assert (targets + [t])[|targets|] == t;
  }

  lemma OfferedSnoc(dialogs: seq<Dialog>, d: Dialog, now: int)
    ensures forall id :: Offered(dialogs + [d], now, id) <==> Offered(dialogs, now, id) || (Eligible(d, now) && id == d.deliveryId)
  {
    forall id | Offered(dialogs, now, id) ensures Offered(dialogs + [d], now, id) {
      var k :| 0 <= k < |dialogs| && dialogs[k].matches && !dialogs[k].reason && now < dialogs[k].expires && dialogs[k].deliveryId == id;
      assert (dialogs + [d])[k] == dialogs[k];
    }
    assert (dialogs + [d])[|dialogs|] == d;
  }

  // The selection loop of queueAlarm over the sessions in map order: every eligible dialog has an id afterwards,
  // and the targets are exactly those ids, each once and unsent.
  method SelectTargets(dialogs: array<Dialog>, minted: seq<string>, now: int) returns (targets: seq<Target>)
    requires |minted| == dialogs.Length
    modifies dialogs
    ensures forall k :: 0 <= k < dialogs.Length ==>
              var d := old(dialogs[k]);
              dialogs[k] == if d.matches && !d.reason && now < d.expires && d.deliveryId == "" then d.(deliveryId := minted[k]) else d
    ensures (forall k :: 0 <= k < |targets| ==> targets[k].state.Unsent?) && Distinct(targets)
    ensures forall id :: Listed(targets, id) <==> Offered(dialogs[..], now, id)
  {
    hide Listed, Offered, Distinct;
    targets := [];
    var selected: set<string> := {};
    SelectNothing(now);
    for i := 0 to dialogs.Length
      invariant forall k :: i <= k < dialogs.Length ==> dialogs[k] == old(dialogs[k])
      invariant forall k :: 0 <= k < i ==>
                  dialogs[k] == if old(Eligible(dialogs[k], now)) then Named(old(dialogs[k]), minted[k]) else old(dialogs[k])
      invariant (forall k :: 0 <= k < |targets| ==> targets[k].state.Unsent?) && Distinct(targets)
      invariant forall id :: id in selected <==> Listed(targets, id)
      invariant forall id :: id in selected <==> Offered(dialogs[..i], now, id)
    {
      ghost var done := dialogs[..i];
      if Eligible(dialogs[i], now) {
        if dialogs[i].deliveryId == "" {
          dialogs[i] := dialogs[i].(deliveryId := minted[i]);
        }
        var id := dialogs[i].deliveryId;
        if id !in selected {
          ListedSnoc(targets, Target(id, Unsent));
          targets := targets + [Target(id, Unsent)];
          selected := selected + {id};
        }
      }
      assert dialogs[..i + 1] == done + [dialogs[i]];
      OfferedSnoc(done, dialogs[i], now);
    }
    assert dialogs[..dialogs.Length] == dialogs[..];
  }

  lemma SelectNothing(now: int)
    ensures Distinct([]) && forall id :: !Listed([], id) && !Offered([], now, id)
  {
  }

  // ---- the unique delivery key ----

  // EnqueueAlarmDelivery: a second insert under one key changes nothing.
  function Enqueue(rows: map<string, Row>, key: string, row: Row): map<string, Row> {
    if key in rows then rows else rows[key := row]
  }

  function EnqueueAll(rows: map<string, Row>, inserts: seq<(string, Row)>): map<string, Row>
    decreases |inserts|
  {
    if inserts == [] then rows else EnqueueAll(Enqueue(rows, inserts[0].0, inserts[0].1), inserts[1..])
  }

  // However often an alarm is queued again, with whatever dialogs present, its first selection stays.
  lemma {:induction false} SelectionIsFrozen(rows: map<string, Row>, key: string, row: Row, later: seq<(string, Row)>)
    requires key !in rows
    ensures var end := EnqueueAll(Enqueue(rows, key, row), later); key in end && end[key] == row
  {
    StaysQueued(Enqueue(rows, key, row), key, later);
  }

  lemma {:induction false} StaysQueued(rows: map<string, Row>, key: string, inserts: seq<(string, Row)>)
    requires key in rows
    ensures key in EnqueueAll(rows, inserts) && EnqueueAll(rows, inserts)[key] == rows[key]
    decreases |inserts|
  {
    if inserts != [] {
      StaysQueued(Enqueue(rows, inserts[0].0, inserts[0].1), key, inserts[1..]);
    }
  }
}
