// The lease table of talk/cascade_lease.go: one row per audio reservation, at most
// one live row per channel, and a released row that never comes back.
module TalkLease {
  import opened Wrappers

  datatype LeaseState = Reserved | Publishing | Inviting | Active | Stopping | Ended | Failed | Expired {
    predicate Terminal() {
      Ended? || Failed? || Expired?
    }
  }

  // Web covers the two browser modes, which share the channel index with cascade leases.
  datatype Mode = Cascade | Web

  datatype Lease = Lease(mode: Mode, channel: nat, device: string, target: string,
                         state: LeaseState, expiresAt: int)

  type Leases = map<string, Lease>

  datatype ReserveResult = Reserved(leases: Leases) | InvalidIdentity | ChannelBusy | DuplicateId

  const PREFIX := "cascade-audio-"

  predicate HasPrefix(id: string) {
    |id| >= |PREFIX| && id[..|PREFIX|] == PREFIX
  }

  predicate GbId(value: string) {
    |value| == 20 && forall i :: 0 <= i < |value| ==> '0' <= value[i] <= '9'
  }

  predicate Live(leases: Leases, id: string) {
    id in leases && !leases[id].state.Terminal()
  }

  predicate ChannelFree(leases: Leases, channel: nat) {
    forall id :: id in leases && !leases[id].state.Terminal() ==> leases[id].channel != channel
  }

  // A well-formed identity, an id that no lease had before, and a channel without a live lease.
  predicate CanReserve(leases: Leases, id: string, channel: nat, device: string, target: string) {
    && |id| <= 64 && HasPrefix(id) && channel > 0 && GbId(device) && GbId(target)
    && id !in leases && forall other :: other in leases && leases[other].channel == channel ==> leases[other].state.Terminal()
  }

  // ReserveCascadeLease. The two unique indexes (session id, live channel) decide conflicts.
  function Reserve(leases: Leases, id: string, channel: nat, device: string, target: string, expiresAt: int): ReserveResult {
    if !HasPrefix(id) || |id| > 64 || channel == 0 || !GbId(device) || !GbId(target) then InvalidIdentity
    else if id in leases then DuplicateId
    else if !ChannelFree(leases, channel) then ChannelBusy
    else ReserveResult.Reserved(leases[id := Lease(Cascade, channel, device, target, LeaseState.Reserved, expiresAt)])
  }

  // A browser reservation competes for the same channel index.
  function ReserveWeb(leases: Leases, id: string, channel: nat, expiresAt: int): Leases {
    if id in leases || !ChannelFree(leases, channel) then leases
    else leases[id := Lease(Web, channel, "", "", LeaseState.Reserved, expiresAt)]
  }

  // Transition and canTransition of the web sessions, talk/repo.go:283-298 and 494-518.
  predicate CanMoveWeb(from: LeaseState, to: LeaseState) {
    && !from.Terminal()
    && (to.Failed? || to.Expired?
        || (from.Reserved? && (to.Publishing? || to.Stopping?)) || (from.Publishing? && (to.Inviting? || to.Stopping?))
        || (from.Inviting? && (to.Active? || to.Stopping?)) || (from.Active? && to.Stopping?) || (from.Stopping? && to.Ended?))
  }

  function MoveWeb(leases: Leases, id: string, from: LeaseState, to: LeaseState, until: Option<int>): Leases {
    if CanMoveWeb(from, to) && id in leases && leases[id].mode.Web? && leases[id].state == from
    then leases[id := leases[id].(state := to, expiresAt := if until.Some? then until.value else leases[id].expiresAt)]
    else leases
  }

  // RenewActive and FinishAndReleaseLease, talk/repo.go:377-402.
  function RenewWeb(leases: Leases, id: string, expiresAt: int): Leases {
    if id in leases && leases[id].mode.Web? && leases[id].state.Active?
    then leases[id := leases[id].(expiresAt := expiresAt)]
    else leases
  }

  function FinishWeb(leases: Leases, id: string, to: LeaseState): Leases {
    if to.Terminal() && Live(leases, id) && leases[id].mode.Web?
    then leases[id := leases[id].(state := to)]
    else leases
  }

  predicate CanActivate(leases: Leases, id: string, now: int, expiresAt: int) {
    && now < expiresAt
    && id in leases && leases[id].mode.Cascade? && leases[id].state.Reserved? && now < leases[id].expiresAt
  }

  function Activate(leases: Leases, id: string, now: int, expiresAt: int): Leases {
    if CanActivate(leases, id, now, expiresAt)
    then leases[id := leases[id].(state := LeaseState.Active, expiresAt := expiresAt)]
    else leases
  }

  predicate CanRenew(leases: Leases, id: string, now: int, expiresAt: int) {
    && now < expiresAt
    && id in leases && leases[id].mode.Cascade? && leases[id].state.Active? && now < leases[id].expiresAt
  }

  function Renew(leases: Leases, id: string, now: int, expiresAt: int): Leases {
    if CanRenew(leases, id, now, expiresAt)
    then leases[id := leases[id].(expiresAt := expiresAt)]
    else leases
  }

  // A non-terminal target state is refused by ReleaseCascadeLease without touching the row.
  function Release(leases: Leases, id: string, to: LeaseState): Leases {
    if to.Terminal() && Live(leases, id) && leases[id].mode.Cascade?
    then leases[id := leases[id].(state := to)]
    else leases
  }

  // ---- what every lease operation keeps ----

  ghost predicate OneLivePerChannel(leases: Leases) {
    forall a, b :: Live(leases, a) && Live(leases, b) && leases[a].channel == leases[b].channel ==> a == b
  }

  // The later table remembers every earlier lease, and a terminal one is frozen.
  ghost predicate Follows(before: Leases, after: Leases) {
    forall id :: id in before ==>
      && id in after
      && after[id].mode == before[id].mode && after[id].channel == before[id].channel
      && after[id].device == before[id].device && after[id].target == before[id].target
      && (before[id].state.Terminal() ==> after[id] == before[id])
  }

  datatype Op =
    | OpReserve(id: string, channel: nat, device: string, target: string, until: int)
    | OpReserveWeb(id: string, channel: nat, until: int)
    | OpMoveWeb(id: string, from: LeaseState, to: LeaseState, renewed: Option<int>)
    | OpRenewWeb(id: string, until: int)
    | OpFinishWeb(id: string, to: LeaseState)
    | OpActivate(id: string, now: int, until: int)
    | OpRenew(id: string, now: int, until: int)
    | OpRelease(id: string, to: LeaseState)

  function Apply(leases: Leases, op: Op): Leases {
    match op
    case OpReserve(id, channel, device, target, until) =>
      var r := Reserve(leases, id, channel, device, target, until);
      if r.Reserved? then r.leases else leases
    case OpReserveWeb(id, channel, until) => ReserveWeb(leases, id, channel, until)
    case OpMoveWeb(id, from, to, renewed) => MoveWeb(leases, id, from, to, renewed)
    case OpRenewWeb(id, until) => RenewWeb(leases, id, until)
    case OpFinishWeb(id, to) => FinishWeb(leases, id, to)
    case OpActivate(id, now, until) => Activate(leases, id, now, until)
    case OpRenew(id, now, until) => Renew(leases, id, now, until)
    case OpRelease(id, to) => Release(leases, id, to)
  }

  function ApplyAll(leases: Leases, ops: seq<Op>): Leases
    decreases |ops|
  {
    if ops == [] then leases else ApplyAll(Apply(leases, ops[0]), ops[1..])
  }

  // An operation inserts a lease on a free channel or changes a live one, whose identity stays.
  ghost predicate Touches(before: Leases, after: Leases, id: string) {
    && id in after && after == before[id := after[id]]
    && (if id in before then
          && Live(before, id) && after[id].mode == before[id].mode && after[id].channel == before[id].channel
          && after[id].device == before[id].device && after[id].target == before[id].target
        else ChannelFree(before, after[id].channel))
  }

  lemma ApplyTouches(leases: Leases, op: Op)
    ensures Apply(leases, op) == leases || Touches(leases, Apply(leases, op), op.id)
  {
  }

  lemma ApplyFollows(leases: Leases, op: Op)
    ensures Follows(leases, Apply(leases, op))
  {
    ApplyTouches(leases, op);
    hide Apply;
  }

  lemma StepKeeps(leases: Leases, op: Op)
    requires OneLivePerChannel(leases)
    ensures OneLivePerChannel(Apply(leases, op))
    ensures Follows(leases, Apply(leases, op))
  {
    ApplyTouches(leases, op);
    ApplyFollows(leases, op);
    hide Apply, Follows;
    var after := Apply(leases, op);
    forall a, b | Live(after, a) && Live(after, b) && after[a].channel == after[b].channel
      ensures a == b
    {
      assert a in leases && !leases[a].state.Terminal() ==> Live(leases, a);
      assert b in leases && !leases[b].state.Terminal() ==> Live(leases, b);
    }
  }

  // The end of a live lease, of either kind, frees its channel for the next reservation.
  lemma EndFreesChannel(leases: Leases, id: string, to: LeaseState)
    requires OneLivePerChannel(leases) && Live(leases, id) && to.Terminal()
    ensures var after := if leases[id].mode.Web? then FinishWeb(leases, id, to) else Release(leases, id, to);
            ChannelFree(after, leases[id].channel) && forall other :: other != id ==> (Live(after, other) <==> Live(leases, other))
  {
    forall other | other in leases && !leases[other].state.Terminal() && leases[other].channel == leases[id].channel
      ensures other == id
    {
      assert Live(leases, other);
    }
  }

  // Over any run of lease calls a channel has at most one live lease, and a released
  // lease is never activated, renewed or released again.
  lemma {:induction false} LeaseHistory(leases: Leases, ops: seq<Op>)
    requires OneLivePerChannel(leases)
    ensures OneLivePerChannel(ApplyAll(leases, ops))
    ensures Follows(leases, ApplyAll(leases, ops))
    decreases |ops|
  {
    if ops == [] {
    } else {
      var next := Apply(leases, ops[0]);
      StepKeeps(leases, ops[0]);
      LeaseHistory(next, ops[1..]);
      FollowsTrans(leases, next, ApplyAll(next, ops[1..]));
    }
  }

  lemma FollowsRefl(a: Leases)
    ensures Follows(a, a)
  {
  }

  lemma FollowsTrans(a: Leases, b: Leases, c: Leases)
    requires Follows(a, b) && Follows(b, c)
    ensures Follows(a, c)
  {
  }

  // The repository methods, each one conditional statement on the table.
  class LeaseTable {
    var leases: Leases

    constructor ()
      ensures leases == map[]
    {
      leases := map[];
    }

    // The channel index: whether some live lease holds the channel.
    method ChannelBusyNow(channel: nat) returns (busy: bool)
      ensures busy == !ChannelFree(leases, channel)
    {
      var rest := leases.Keys;
      while rest != {}
        invariant rest <= leases.Keys
        invariant forall id :: id in leases && id !in rest && !leases[id].state.Terminal() ==> leases[id].channel != channel
        decreases |rest|
      {
        var id :| id in rest;
        if !leases[id].state.Terminal() && leases[id].channel == channel {
          return true;
        }
        rest := rest - {id};
      }
      return false;
    }

    method ReserveCascadeLease(id: string, channel: nat, device: string, target: string, expiresAt: int) returns (r: ReserveResult)
      requires OneLivePerChannel(leases)
      modifies this
      ensures r == old(Reserve(leases, id, channel, device, target, expiresAt))
      ensures r.Reserved? <==> old(CanReserve(leases, id, channel, device, target))
      ensures r.Reserved? ==> leases == old(leases)[id := Lease(Cascade, channel, device, target, LeaseState.Reserved, expiresAt)]
      ensures r.ChannelBusy? ==> exists other :: Live(old(leases), other) && old(leases)[other].channel == channel
      ensures leases == if r.Reserved? then r.leases else old(leases)
      ensures OneLivePerChannel(leases)
    {
      StepKeeps(leases, OpReserve(id, channel, device, target, expiresAt));
      if !HasPrefix(id) || |id| > 64 || channel == 0 || !GbId(device) || !GbId(target) {
        return InvalidIdentity;
      }
      if id in leases {
        return DuplicateId;
      }
      var busy := ChannelBusyNow(channel);
      if busy {
        return ChannelBusy;
      }
      leases := leases[id := Lease(Cascade, channel, device, target, LeaseState.Reserved, expiresAt)];
      return ReserveResult.Reserved(leases);
    }

    // An UPDATE with a WHERE clause: it reports whether a row matched.
    method ActivateCascadeLease(id: string, now: int, expiresAt: int) returns (ok: bool)
      modifies this
      ensures ok == old(CanActivate(leases, id, now, expiresAt)) && leases == Activate(old(leases), id, now, expiresAt)
      ensures ok ==> Live(leases, id) && leases[id].expiresAt == expiresAt
      ensures ok <==> now < expiresAt && id in old(leases) && old(leases)[id].mode.Cascade? && old(leases)[id].state.Reserved?
                      && now < old(leases)[id].expiresAt
      ensures leases == if ok then old(leases)[id := old(leases)[id].(state := LeaseState.Active, expiresAt := expiresAt)] else old(leases)
    {
      if expiresAt <= now || id !in leases {
        return false;
      }
      var lease := leases[id];
      if !lease.mode.Cascade? || !lease.state.Reserved? || lease.expiresAt <= now {
        return false;
      }
      leases := leases[id := lease.(state := LeaseState.Active, expiresAt := expiresAt)];
      return true;
    }

    method RenewCascadeLease(id: string, now: int, expiresAt: int) returns (ok: bool)
      modifies this
      ensures ok == old(CanRenew(leases, id, now, expiresAt)) && leases == Renew(old(leases), id, now, expiresAt)
      ensures ok ==> Live(leases, id) && leases[id].expiresAt == expiresAt
      ensures ok <==> now < expiresAt && id in old(leases) && old(leases)[id].mode.Cascade? && old(leases)[id].state.Active?
                      && now < old(leases)[id].expiresAt
      ensures leases == if ok then old(leases)[id := old(leases)[id].(expiresAt := expiresAt)] else old(leases)
    {
      if expiresAt <= now || id !in leases {
        return false;
      }
      var lease := leases[id];
      if !lease.mode.Cascade? || !lease.state.Active? || lease.expiresAt <= now {
        return false;
      }
      leases := leases[id := lease.(expiresAt := expiresAt)];
      return true;
    }

    // Releasing twice matches no row the second time.
    method ReleaseCascadeLease(id: string, terminal: LeaseState) returns (ok: bool)
      modifies this
      ensures leases == Release(old(leases), id, terminal)
      ensures ok <==> (terminal.Ended? || terminal.Failed? || terminal.Expired?) && old(Live(leases, id)) && old(leases)[id].mode.Cascade?
      ensures leases == if ok then old(leases)[id := old(leases)[id].(state := terminal)] else old(leases)
    {
      if !terminal.Terminal() || id !in leases {
        return false;
      }
      var lease := leases[id];
      if !lease.mode.Cascade? || lease.state.Terminal() {
        return false;
      }
      leases := leases[id := lease.(state := terminal)];
      return true;
    }
  }
}
