// The one window in which a concurrent writer defeats an audio claim: between the claim's own
// read and its UPDATE.
module BroadcastRace {
  import opened Wrappers
  import opened BroadcastTasks
  import opened BroadcastRuns
  import opened BroadcastTheorems
  import TalkLease

  const LEASE_ID := "cascade-audio-1"
  const DEVICE := "34020000001320000001"
  const CHANNEL := "34020000001320000002"

  function SomeDraft(): Draft {
    Draft("hash", 1, 7, DEVICE, Scope(1, 1, DEVICE, DEVICE, CHANNEL, 0, 0, "", CHANNEL, "", 0))
  }

  function SomeAudio(): AudioTransaction {
    AudioTransaction("call", 1, "tag", "branch", "hash")
  }

  // Reservation, INVITE resolved, claim reads the row, device answer reads the row.
  function Approach(): seq<Event> {
    [ReadReservation(0, "k", SomeDraft(), true), CommitReservation(0, LEASE_ID, SECOND, 0), Resolve(1, "k", DEVICE),
     ReadClaim(1, SomeAudio(), true, 0), ReadRecord(2, "k", Ok)]
  }

  function Row(): Task {
    NewTask(SomeDraft(), LEASE_ID, 0)
  }

  function Tables(): Database {
    Database(map["k" := Row()], map[LEASE_ID := TalkLease.Lease(TalkLease.Cascade, 7, DEVICE, CHANNEL, TalkLease.LeaseState.Reserved, SECOND)])
  }

  function Crossroads(): System {
    System(Tables(),
           map[0 := Notifying("k", "hash"), 1 := Claiming("k", Row().summary.binding, DEVICE, SomeAudio(), true, Some(Row())),
               2 := Recording("k", Ok, Some(Row()))],
           [], map[])
  }

  lemma RunUnfolds(s: System, events: seq<Event>)
    requires events != []
    ensures Run(s, events) == Run(Step(s, events[0]), events[1..])
    ensures |events| == 1 ==> Run(s, events) == Step(s, events[0])
  {
  }

  lemma ReservationSteps()
    ensures var e := Approach();
            Step(Step(Init(), e[0]), e[1]) == System(Tables(), map[0 := Notifying("k", "hash")], [], map[])
  {
    hide Run;
    var e := Approach();
    var s1 := Step(Init(), e[0]);
    assert s1 == System(Database(map[], map[]), map[0 := Reserving("k", SomeDraft())], [], map[]);
    assert TalkLease.HasPrefix(LEASE_ID);
    assert TalkLease.Reserve(map[], LEASE_ID, 7, DEVICE, CHANNEL, SECOND) == TalkLease.ReserveResult.Reserved(Tables().leases);
    assert Insert(s1.db, "k", SomeDraft(), LEASE_ID, SECOND, 0) == Created(Tables());
  }

  lemma ReadingSteps()
    ensures var e := Approach();
            Step(Step(Step(System(Tables(), map[0 := Notifying("k", "hash")], [], map[]), e[2]), e[3]), e[4]) == Crossroads()
  {
    hide Run, DoCommitReservation, Insert;
    var e := Approach();
    var s2 := System(Tables(), map[0 := Notifying("k", "hash")], [], map[]);
    var s3 := Step(s2, e[2]);
    assert s3 == s2.(jobs := map[0 := Notifying("k", "hash"), 1 := Pulled("k", Row().summary.binding, DEVICE)]);
    assert LeaseUsable(Tables(), Row().summary.binding, 7, 0);
    var s4 := Step(s3, e[3]);
    assert s4 == s2.(jobs := s2.jobs[1 := Claiming("k", Row().summary.binding, DEVICE, SomeAudio(), true, Some(Row()))]);
  }

  lemma {:induction false} ApproachRuns()
    ensures Run(Init(), Approach()) == Crossroads()
  {
    ReservationSteps();
    ReadingSteps();
    hide Step, Init, Crossroads, Tables;
    var e := Approach();
    var s1 := Step(Init(), e[0]);
    var s2 := Step(s1, e[1]);
    var s3 := Step(s2, e[2]);
    var s4 := Step(s3, e[3]);
    RunUnfolds(Init(), e); RunUnfolds(s1, e[1..]); RunUnfolds(s2, e[2..]); RunUnfolds(s3, e[3..]); RunUnfolds(s4, e[4..]);
  }

  // A claim that could commit before a step cannot afterwards, though it was permitted and its row still accepts audio
  // and holds no audio transaction.
  predicate Defeated(before: System, after: System, id: nat) {
    && Claims(before, id) && id in after.jobs && after.jobs[id] == before.jobs[id] && !Claims(after, id)
    && after.jobs[id].permitted && after.jobs[id].key in after.db.tasks && after.db.tasks[after.jobs[id].key].state.AcceptsAudio()
    && AudioOf(after.db, after.jobs[id].key) == NO_AUDIO
  }

  // A permitted claim that would succeed now fails once the device result of its row commits first; the row still
  // accepts audio and holds no other audio transaction.
  lemma {:induction false} ResultDefeatsClaim()
    ensures Defeated(Run(Init(), Approach()), Run(Init(), Approach() + [CommitRecord(2)]), 1)
  {
    ApproachRuns();
    RunAppend(Init(), Approach(), [CommitRecord(2)]);
    RunUnfolds(Crossroads(), [CommitRecord(2)]);
    CrossroadsClaims();
    hide *;
  }

  lemma CrossroadsClaims()
    ensures Defeated(Crossroads(), Step(Crossroads(), CommitRecord(2)), 1)
  {
    hide Run, Approach, Init;
    assert Step(Crossroads(), CommitRecord(2)).db.tasks["k"].summary
        == Encoded(Row().summary.binding.(deviceResult := Ok));
  }
}
