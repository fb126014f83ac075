// The numbers that one dialog sees when a later subscription of the key may keep its To tag.
module EventDialogs {
  import opened Wrappers
  import opened EventSubscription
  import opened EventTheorems
  import opened EventWrap

  // ---- every session numbers from its own first NOTIFY ----

  ghost predicate Silent(wire: seq<Notify>, id: nat) {
    forall m :: m in wire ==> m.session != id
  }

  // Before its first request, a session's counter is the number of its own calls.
  ghost predicate Unstarted(x: Session) {
    x.notifySeq == x.begun % WORD && (x.flight.Some? ==> x.flight.value.copies == 0)
  }

  predicate Opens(wire: seq<Notify>, j: nat) {
    j < |wire| && forall i :: 0 <= i < j ==> wire[i].session != wire[j].session
  }

  ghost predicate Numbered(s: System) {
    && (forall k :: 0 <= k < |s.sessions| && Silent(s.wire, k) ==> Unstarted(s.sessions[k]))
    && (forall j: nat :: Opens(s.wire, j) ==> s.wire[j].cseq == s.wire[j].number % WORD)
    && (forall m :: m in s.wire ==> m.number > 0 && m.cseq > 0)
    && (forall k :: 0 <= k < |s.sessions| && s.sessions[k].flight.Some? ==> s.sessions[k].flight.value.number > 0)
  }

  lemma NextInWord(n: nat)
    ensures (n % WORD + 1) % WORD == (n + 1) % WORD
  {
  }

  lemma ActKeepsUnstarted(x: Session, now: int, closed: bool, id: nat, a: Action)
    requires Orderly(x, now) && Unstarted(x) && Sent(x, id, a) == []
    ensures Unstarted(Acted(x, now, closed, a))
  {
    NextInWord(x.begun);
    if a.Finish? {
      FinishKeeps(x, a.outcome);
    }
    hide DoFinish;
  }

  lemma ActKeepsNumbers(x: Session, now: int, closed: bool, a: Action)
    requires x.flight.Some? ==> x.flight.value.number > 0
    ensures var y := Acted(x, now, closed, a); y.flight.Some? ==> y.flight.value.number > 0
  {
    if a.Finish? {
      FinishKeeps(x, a.outcome);
    }
    hide DoFinish;
  }

  lemma SendNumbered(s: System, id: nat, a: Action)
    requires Inv(s) && Numbered(s) && id < |s.sessions|
    ensures forall m :: m in Sent(s.sessions[id], id, a) ==>
              m.session == id && m.number > 0 && m.cseq > 0 && (Silent(s.wire, id) ==> m.cseq == m.number % WORD)
  {
    assert Sane(s.sessions[id], s.clock, id, s.wire);
    hide Remembers, Counted, InOrder, Retired;
  }

  lemma OpensAfter(wire: seq<Notify>, m: Notify, j: nat)
    requires Opens(wire + [m], j)
    ensures if j < |wire| then Opens(wire, j) else j == |wire| && Silent(wire, m.session)
  {
    forall i | 0 <= i < |wire| ensures (wire + [m])[i] == wire[i] {}
  }

  lemma QuietKeepsNumbered(s: System, id: nat, a: Action)
    requires Inv(s) && Numbered(s) && id < |s.sessions| && Sent(s.sessions[id], id, a) == []
    ensures Numbered(Step(s, Act(id, a)))
  {
    var x, t := s.sessions[id], Step(s, Act(id, a));
    ActKeepsNumbers(x, s.clock, s.closed, a);
    assert Sane(x, s.clock, id, s.wire);
    assert t.wire == s.wire;
    hide Acted, Inv, Remembers, Counted, Opens, Sent;
    if Silent(s.wire, id) {
      ActKeepsUnstarted(x, s.clock, s.closed, id, a);
    }
    hide Unstarted, Silent;
  }

  lemma SendingKeepsNumbered(s: System, id: nat, a: Action, m: Notify)
    requires Inv(s) && Numbered(s) && id < |s.sessions| && Sent(s.sessions[id], id, a) == [m]
    ensures Numbered(Step(s, Act(id, a)))
  {
    var t := Step(s, Act(id, a));
    SendNumbered(s, id, a);
    ActKeepsNumbers(s.sessions[id], s.clock, s.closed, a);
    assert m in [m];
    assert t.wire == s.wire + [m];
    hide Acted, Inv, Sent, Opens, Unstarted;
    forall j: nat | Opens(t.wire, j) ensures t.wire[j].cseq == t.wire[j].number % WORD {
      OpensAfter(s.wire, m, j);
      OpensInside(t.wire, j);
    }
    SilentBefore(s.wire, m);
  }

  lemma ActKeepsNumbered(s: System, id: nat, a: Action)
    requires Inv(s) && Numbered(s) && id < |s.sessions|
    ensures Numbered(Step(s, Act(id, a)))
  {
    var sent := Sent(s.sessions[id], id, a);
    assert |sent| <= 1;
    hide Inv, Numbered, Step;
    if sent == [] {
      QuietKeepsNumbered(s, id, a);
    } else {
      SendingKeepsNumbered(s, id, a, sent[0]);
    }
  }

  lemma OpensInside(wire: seq<Notify>, j: nat)
    requires Opens(wire, j)
    ensures j < |wire|
  {
  }

  lemma SilentBefore(wire: seq<Notify>, m: Notify)
    ensures forall k :: Silent(wire + [m], k) ==> Silent(wire, k) && k != m.session
  {
    forall k | Silent(wire + [m], k) ensures Silent(wire, k) && k != m.session {
      assert m in wire + [m];
    }
  }

  lemma StepKeepsNumbered(s: System, e: Event)
    requires Inv(s) && Numbered(s)
    ensures Numbered(Step(s, e))
  {
    if e.Act? && e.id < |s.sessions| {
      ActKeepsNumbered(s, e.id, e.action);
    } else {
      hide Inv, Acted, Opens;
    }
  }

  lemma {:induction false} RunKeepsNumbered(s: System, events: seq<Event>)
    requires Inv(s) && Numbered(s)
    ensures Inv(Run(s, events)) && Numbered(Run(s, events))
    decreases |events|
  {
    hide Inv, Numbered, Step;
    if events != [] {
      StepKeepsInv(s, events[0]);
      StepKeepsNumbered(s, events[0]);
      RunKeepsNumbered(Step(s, events[0]), events[1..]);
    }
  }

  // The first request of every session carries the number of that session's own call, so its first call has CSeq 1
  // whatever the sessions before it have used.
  lemma {:induction false} SessionsNumberFromOne(clock: int, events: seq<Event>, j: nat)
    requires Opens(Run(Init(clock), events).wire, j)
    ensures var m := Run(Init(clock), events).wire[j]; m.cseq == m.number % WORD && m.number > 0
  {
    hide Inv;
    assert Inv(Init(clock)) by { InitInv(clock); }
    RunKeepsNumbered(Init(clock), events);
    hide Run, Opens;
    OpensInside(Run(Init(clock), events).wire, j);
    assert Run(Init(clock), events).wire[j] in Run(Init(clock), events).wire;
  }

  lemma InitInv(clock: int)
    ensures Inv(Init(clock)) && Numbered(Init(clock))
  {
  }

  // ---- one dialog over several sessions ----

  ghost predicate SameDialog(s: System, i: nat, j: nat) {
    && i < |s.wire| && j < |s.wire| && s.wire[i].session < |s.sessions| && s.wire[j].session < |s.sessions|
    && s.sessions[s.wire[i].session].tag == s.sessions[s.wire[j].session].tag
  }

  // Session `id` sends a number that an earlier session of the same dialog has already reached.
  ghost predicate Repeats(s: System, id: nat) {
    exists i, j :: 0 <= i < j < |s.wire| && SameDialog(s, i, j)
                   && s.wire[i].session < s.wire[j].session == id && s.wire[j].cseq <= s.wire[i].cseq
  }

  // Session `id` is the newest of `s`; what older ones sent is all there, and tags do not change.
  ghost predicate Follows(t: System, s: System, id: nat) {
    && id < |t.sessions| && |s.sessions| <= |t.sessions| && s.wire <= t.wire && id < |s.sessions|
    && (forall k :: 0 <= k < |s.sessions| ==> t.sessions[k].tag == s.sessions[k].tag)
    && (forall x :: |s.wire| <= x < |t.wire| ==> t.wire[x].session >= id)
  }

  lemma ActKeepsTag(x: Session, now: int, closed: bool, a: Action)
    ensures Acted(x, now, closed, a).tag == x.tag
  {
    if a.Finish? {
      FinishKeeps(x, a.outcome);
    }
    hide DoFinish;
  }

  lemma StepFollows(s: System, e: Event, id: nat)
    requires Inv(s) && id + 1 <= |s.sessions|
    ensures |s.sessions| <= |Step(s, e).sessions| && s.wire <= Step(s, e).wire
    ensures forall k :: 0 <= k < |s.sessions| ==> Step(s, e).sessions[k].tag == s.sessions[k].tag
    ensures forall x :: |s.wire| <= x < |Step(s, e).wire| ==> Step(s, e).wire[x].session >= |s.sessions| - 1
  {
    if e.Act? && e.id < |s.sessions| {
      ActKeepsTag(s.sessions[e.id], s.clock, s.closed, e.action);
    }
    assert Retired(s);
    hide Acted, Sane, InOrder;
  }

  lemma {:induction false} RunFollows(t: System, events: seq<Event>, s: System, id: nat)
    requires Inv(t) && Follows(t, s, id)
    ensures Inv(Run(t, events)) && Follows(Run(t, events), s, id)
    decreases |events|
  {
    if events != [] {
      var u := Step(t, events[0]);
      StepKeepsInv(t, events[0]);
      StepFollows(t, events[0], id);
      hide Inv, Step;
      assert Follows(u, s, id);
      RunFollows(u, events[1..], s, id);
    }
  }

  ghost predicate Spoken(s: System, tag: nat) {
    exists i :: 0 <= i < |s.wire| && s.wire[i].session < |s.sessions| && s.sessions[s.wire[i].session].tag == tag
  }

  lemma RepeatNeeds(t: System, u: System, id: nat)
    requires Inv(t) && Follows(u, t, id) && id == |t.sessions| - 1 && Repeats(u, id)
    requires forall m :: m in t.wire ==> m.session < id
    ensures Spoken(t, t.sessions[id].tag)
  {
    var i, j :| 0 <= i < j < |u.wire| && SameDialog(u, i, j) && u.wire[i].session < u.wire[j].session == id
                && u.wire[j].cseq <= u.wire[i].cseq;
    assert i < |t.wire| && t.wire[i] == u.wire[i];
    hide Inv;
  }

  // The new session sends its first event at once.
  lemma FirstEvent(t: System, id: nat, tag: nat, remote: nat, seconds: nat)
    requires id < |t.sessions| && t.sessions[id] == Opened(tag, remote, seconds, t.clock) && seconds > 0
    ensures var u := Run(t, [Act(id, BeginData), Act(id, Transmit)]);
            && u.wire == t.wire + [Notify(id, 1, 1, false)] && |u.sessions| == |t.sessions|
            && (forall k :: 0 <= k < |t.sessions| ==> u.sessions[k].tag == t.sessions[k].tag)
  {
    var events := [Act(id, BeginData), Act(id, Transmit)];
    var t1 := Step(t, events[0]);
    assert t1.wire == t.wire + [];
    assert t1.sessions == t.sessions[id := TakeOff(t.sessions[id], Data)] && CanTransmit(t1.sessions[id]);
    assert Step(t1, events[1]).wire == t1.wire + [Notify(id, 1, 1, false)];
    ActKeepsTag(t1.sessions[id], t1.clock, t1.closed, Transmit);
    hide Acted;
    RunUnfolds(t, events);
    RunUnfolds(t1, events[1..]);
  }

  lemma RepeatFollows(t: System, u: System, id: nat, tag: nat)
    requires Numbered(t) && Spoken(t, tag) && id < |t.sessions| && t.sessions[id].tag == tag
    requires forall m :: m in t.wire ==> m.session < id
    requires u.wire == t.wire + [Notify(id, 1, 1, false)] && |u.sessions| == |t.sessions|
    requires forall k :: 0 <= k < |t.sessions| ==> u.sessions[k].tag == t.sessions[k].tag
    ensures Repeats(u, id)
  {
    var i :| 0 <= i < |t.wire| && t.wire[i].session < |t.sessions| && t.sessions[t.wire[i].session].tag == tag;
    assert t.wire[i] in t.wire;
    assert u.wire[i] == t.wire[i] && u.wire[|t.wire|] == Notify(id, 1, 1, false);
    hide Numbered;
    assert SameDialog(u, i, |t.wire|);
  }

  // `t` is `s` with the accepted session `id`.
  ghost predicate Joined(s: System, t: System, id: nat, tag: nat, remote: nat, seconds: nat) {
    && id == |s.sessions| && t == s.(sessions := s.sessions + [Opened(tag, remote, seconds, s.clock)])
    && (forall m :: m in t.wire ==> m.session < id)
  }

  lemma JoinedRepeatNeeds(s: System, t: System, id: nat, tag: nat, remote: nat, seconds: nat, after: seq<Event>)
    requires Inv(t) && Joined(s, t, id, tag, remote, seconds) && Repeats(Run(t, after), id)
    ensures Spoken(t, tag)
  {
    hide Inv, Run, Repeats, Spoken;
    assert Follows(t, t, id);
    RunFollows(t, after, t, id);
    RepeatNeeds(t, Run(t, after), id);
  }

  lemma JoinedRepeats(s: System, t: System, id: nat, tag: nat, remote: nat, seconds: nat)
    requires Numbered(t) && Joined(s, t, id, tag, remote, seconds) && seconds > 0 && Spoken(t, tag)
    ensures exists after :: Repeats(Run(t, after), id)
  {
    hide Numbered, Run, Repeats, Spoken;
    FirstEvent(t, id, tag, remote, seconds);
    RepeatFollows(t, Run(t, [Act(id, BeginData), Act(id, Transmit)]), id, tag);
  }

  lemma JoinedInv(s: System, tag: nat, remote: nat, seconds: nat, kept: bool)
    requires Inv(s) && Numbered(s) && Accepts(s, remote, seconds, tag, kept)
    ensures var t := Step(s, Subscribe(remote, seconds, tag, kept));
            && Inv(t) && Numbered(t) && Joined(s, t, |s.sessions|, tag, remote, seconds)
            && (Spoken(t, tag) <==> Spoken(s, tag))
  {
    var e := Subscribe(remote, seconds, tag, kept);
    StepKeepsInv(s, e);
    StepKeepsNumbered(s, e);
    SpokenBefore(s, Step(s, e), tag);
    hide Sane, Retired, InOrder, Numbered, Spoken;
  }

  // A new session can repeat numbers within its dialog if and only if its tag is one under which a NOTIFY was
  // already sent. A drawn tag is not.
  lemma {:induction false} KeptTagRepeatsExactly(clock: int, before: seq<Event>, remote: nat, seconds: nat, tag: nat, kept: bool)
    requires Accepts(Run(Init(clock), before), remote, seconds, tag, kept)
    ensures var s := Run(Init(clock), before);
            var t := Step(s, Subscribe(remote, seconds, tag, kept));
            && ((exists after :: Repeats(Run(t, after), |s.sessions|)) <==> Spoken(s, tag))
            && (Spoken(s, tag) ==> kept)
  {
    InitInv(clock);
    RunKeepsNumbered(Init(clock), before);
    var s := Run(Init(clock), before);
    var t := Step(s, Subscribe(remote, seconds, tag, kept));
    assert seconds > 0;
    JoinedInv(s, tag, remote, seconds, kept);
    hide Inv, Numbered, Run, Step, Init, Repeats, Spoken, Accepts, Joined;
    forall after | Repeats(Run(t, after), |s.sessions|) ensures Spoken(t, tag) {
      JoinedRepeatNeeds(s, t, |s.sessions|, tag, remote, seconds, after);
    }
    if Spoken(t, tag) {
      JoinedRepeats(s, t, |s.sessions|, tag, remote, seconds);
      DrawnIsNew(s, remote, seconds, tag, kept);
    }
  }

  lemma SpokenBefore(s: System, t: System, tag: nat)
    requires Inv(s) && |s.sessions| < |t.sessions| && t.sessions[..|s.sessions|] == s.sessions && t.wire == s.wire
    ensures Spoken(t, tag) <==> Spoken(s, tag)
  {
    forall i | 0 <= i < |s.wire| ensures s.wire[i].session < |s.sessions| && t.sessions[s.wire[i].session] == s.sessions[s.wire[i].session] {
      assert s.wire[i] in s.wire;
      assert t.sessions[..|s.sessions|][s.wire[i].session] == t.sessions[s.wire[i].session];
    }
    hide Inv;
  }

  lemma DrawnIsNew(s: System, remote: nat, seconds: nat, tag: nat, kept: bool)
    requires Accepts(s, remote, seconds, tag, kept) && Spoken(s, tag)
    ensures kept
  {
  }

  // ---- whole runs ----

  ghost predicate Ascends(s: System) {
    forall i, j :: 0 <= i < j < |s.wire| && SameDialog(s, i, j) ==> s.wire[i].cseq < s.wire[j].cseq
  }

  // Message `j` is the first of a session that continues the dialog of message `i`.
  ghost predicate Rejoins(s: System, i: nat, j: nat) {
    i < j && Opens(s.wire, j) && SameDialog(s, i, j) && s.wire[i].session != s.wire[j].session
  }

  // The call behind message `j` starts above the number of message `i`.
  ghost predicate Above(s: System, i: nat, j: nat) {
    i < |s.wire| && j < |s.wire| && s.wire[i].cseq < s.wire[j].number % WORD
  }

  ghost predicate NumberedAbove(s: System) {
    forall i: nat, j: nat :: Rejoins(s, i, j) ==> Above(s, i, j)
  }

  lemma {:induction false} FirstOf(wire: seq<Notify>, j: nat, from: nat) returns (k: nat)
    requires from <= j < |wire| && forall i :: 0 <= i < from ==> wire[i].session != wire[j].session
    ensures k <= j && Opens(wire, k) && wire[k].session == wire[j].session
    decreases j - from
  {
    if wire[from].session == wire[j].session {
      k := from;
    } else {
      k := FirstOf(wire, j, from + 1);
    }
  }

  ghost predicate SessionsAscend(s: System) {
    forall i, j :: 0 <= i < j < |s.wire| ==>
      && s.wire[i].session <= s.wire[j].session < |s.sessions|
      && (s.wire[i].session == s.wire[j].session ==> s.wire[i].cseq < s.wire[j].cseq)
  }

  lemma RejoinNumbers(s: System, i: nat, j: nat)
    requires Numbered(s) && Rejoins(s, i, j)
    ensures i < j < |s.wire| && SameDialog(s, i, j) && (Above(s, i, j) <==> s.wire[i].cseq < s.wire[j].cseq)
    ensures s.wire[j].number == 1 ==> !Above(s, i, j)
  {
    hide Opens, Silent;
    assert s.wire[i] in s.wire;
  }

  lemma AscentStartsAbove(s: System)
    requires Numbered(s) && Ascends(s)
    ensures NumberedAbove(s)
  {
    hide Numbered, Rejoins, SameDialog, Above;
    forall i: nat, j: nat | Rejoins(s, i, j) ensures Above(s, i, j) {
      RejoinNumbers(s, i, j);
    }
  }

  lemma SessionsInOrder(s: System, i: nat, j: nat)
    requires SessionsAscend(s) && i < |s.wire| && j < |s.wire|
    ensures s.wire[i].session > s.wire[j].session ==> i > j
  {
  }

  lemma RejoinsFirst(s: System, i: nat, j: nat, k: nat)
    requires i < j < |s.wire| && SameDialog(s, i, j) && s.wire[i].session < s.wire[j].session && SessionsAscend(s)
    requires k <= j && Opens(s.wire, k) && s.wire[k].session == s.wire[j].session
    ensures Rejoins(s, i, k)
  {
    hide Opens;
    SessionsInOrder(s, k, i);
  }

  lemma AboveFromFirst(s: System, i: nat, j: nat)
    requires Numbered(s) && SessionsAscend(s) && NumberedAbove(s)
    requires i < j < |s.wire| && SameDialog(s, i, j) && s.wire[i].session < s.wire[j].session
    ensures s.wire[i].cseq < s.wire[j].cseq
  {
    hide Numbered, Rejoins, Above, Opens, SameDialog;
    var k := FirstOf(s.wire, j, 0);
    RejoinsFirst(s, i, j, k);
    RejoinNumbers(s, i, k);
  }

  lemma AscentFromAbove(s: System)
    requires Numbered(s) && SessionsAscend(s) && NumberedAbove(s)
    ensures Ascends(s)
  {
    hide Numbered, NumberedAbove, SameDialog;
    forall i, j | 0 <= i < j < |s.wire| && SameDialog(s, i, j) ensures s.wire[i].cseq < s.wire[j].cseq {
      if s.wire[i].session != s.wire[j].session {
        AboveFromFirst(s, i, j);
      }
    }
  }

  lemma FirstCallsMeet(s: System)
    requires Numbered(s) && forall j: nat :: Opens(s.wire, j) ==> s.wire[j].number == 1
    ensures NumberedAbove(s) <==> forall i: nat, j: nat :: !Rejoins(s, i, j)
  {
    hide Numbered, Above;
    forall i: nat, j: nat | Rejoins(s, i, j) ensures !Above(s, i, j) {
      assert Opens(s.wire, j);
      RejoinNumbers(s, i, j);
    }
    hide Opens, Rejoins;
  }

  // While no session has 2^31 - 6 SUBSCRIBEs, the numbers of every dialog ascend if and only if each session that
  // takes a dialog over starts above it; when first calls are never lost, if and only if none takes a dialog over.
  lemma {:induction false} DialogsAscendExactly(clock: int, events: seq<Event>)
    requires var s := Run(Init(clock), events);
             forall k :: 0 <= k < |s.sessions| ==> s.sessions[k].generation + 6 < CSEQ_LIMIT
    ensures var s := Run(Init(clock), events);
            && (Ascends(s) <==> NumberedAbove(s))
            && ((forall j: nat :: Opens(s.wire, j) ==> s.wire[j].number == 1) ==>
                  (Ascends(s) <==> forall i: nat, j: nat :: !Rejoins(s, i, j)))
  {
    InitInv(clock);
    RunKeepsNumbered(Init(clock), events);
    var s := Run(Init(clock), events);
    hide Inv, Numbered, Opens, Rejoins, Ascends, NumberedAbove;
    forall i, j | 0 <= i < j < |s.wire|
      ensures s.wire[i].session <= s.wire[j].session < |s.sessions|
      ensures s.wire[i].session == s.wire[j].session ==> s.wire[i].cseq < s.wire[j].cseq
    {
      FewRenewalsKeepOrder(clock, events, i, j);
    }
    hide Run, Init;
    if Ascends(s) {
      AscentStartsAbove(s);
    }
    if NumberedAbove(s) {
      AscentFromAbove(s);
    }
    if forall j: nat :: Opens(s.wire, j) ==> s.wire[j].number == 1 {
      FirstCallsMeet(s);
    }
  }
}
