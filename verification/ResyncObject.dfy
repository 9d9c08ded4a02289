// The client's resync handlers as the code keeps them (class NetworkClient of
// common/src/NetworkClient.cpp): fields and an assembler object changed in place, proved against
// ResyncClient's functions.
module ResyncObject {
  import opened Common
  import opened Snapshot
  import Transfer
  import opened ResyncClient

  // The state after an open plan meets another that is not admitted.
  function Met(s: State, m: Plan, now: nat): State
    requires s.plan.Some?
  {
    if m.request.key == s.plan.value.request.key && !SameRequest(s.plan.value, m) then Abort(s)
    else if m.request.key == s.plan.value.request.key && m.phase == s.plan.value.phase then
      s.(deadline := Sooner(s.deadline, now + m.remaining))
    else s
  }

  class Client {
    var assembler: Transfer.Assembler
    var connected: bool
    var rejected: bool
    var rosterValid: bool
    var session: string
    var slot: nat
    var connections: seq<nat>
    var floorSession: string
    var floorHost: nat
    var deliveryConnections: seq<nat>
    var deliveries: seq<nat>
    var binding: Option<Binding>
    var plan: Option<Plan>
    var requested: Option<Request>
    var hostRoom: Option<Room>
    var completed: Option<Transfer.Begin>
    var quarantined: bool
    var floor: nat
    var deadline: nat
    var lastPlan: nat

    function Abs(): State
      reads this
    {
      State(connected, rejected, rosterValid, session, slot, connections, floorSession, floorHost, deliveryConnections, deliveries,
            binding, plan, requested, hostRoom, assembler, completed, quarantined, floor, deadline, lastPlan)
    }

    // A transfer in progress is one of the open plan's own phase.
    ghost predicate Valid()
      reads this
    {
      Matches(Abs())
    }

    constructor ()
      ensures Valid() && Abs() == Reset(Abs(), false)
    {
      assembler := Transfer.EMPTY;
      connected, rejected, rosterValid, session, slot, connections := false, false, false, "", NO_SLOT, [0, 0, 0];
      floorSession, floorHost, deliveryConnections, deliveries := "", 0, [0, 0, 0], [1, 1, 1];
      binding, plan, requested, hostRoom, completed := None, None, None, None, None;
      quarantined, floor, deadline, lastPlan := false, 0, 0, 0;
    }

    method ClearTransaction()
      modifies this`binding, this`plan, this`requested, this`hostRoom, this`assembler
      ensures binding == None && plan == None && requested == None && hostRoom == None && assembler == Transfer.EMPTY
    {
      binding, plan, requested, hostRoom := None, None, None, None;
      assembler := Transfer.EMPTY;
    }

    method ClearCounters()
      modifies this`completed, this`quarantined, this`floor, this`deadline, this`lastPlan
      ensures completed == None && !quarantined && floor == 0 && deadline == 0 && lastPlan == 0
    {
      completed, quarantined, floor, deadline, lastPlan := None, false, 0, 0, 0;
    }

    method ClearSource()
      modifies this`deliveries, this`deliveryConnections, this`floorSession, this`floorHost
      ensures deliveries == [1, 1, 1] && deliveryConnections == [0, 0, 0] && floorSession == "" && floorHost == 0
    {
      deliveries, deliveryConnections, floorSession, floorHost := [1, 1, 1], [0, 0, 0], "", 0;
    }

    method ClearRoster()
      modifies this`rosterValid, this`session, this`slot, this`connections
      ensures !rosterValid && session == "" && slot == NO_SLOT && connections == [0, 0, 0]
    {
      rosterValid, session, slot, connections := false, "", NO_SLOT, [0, 0, 0];
    }

    method ResetTransport(nowConnected: bool)
      modifies this
      ensures Valid() && Abs() == Reset(old(Abs()), nowConnected)
    {
      ClearTransaction();
      ClearCounters();
      ClearRoster();
      ClearSource();
      rejected, connected := false, nowConnected;
    }

    method AbortResync()
      modifies this
      ensures Abs() == Abort(old(Abs()))
      ensures old(Valid()) ==> Valid()
    {
      if plan.None? {
        if requested.None? {
          return;
        }
        if lastPlan < requested.value.key.request {
          lastPlan := requested.value.key.request;
        }
        requested := None;
        return;
      }
      if slot != 0 {
        quarantined := true;
      }
      plan := None;
      assembler := Transfer.EMPTY;
    }

    method CheckDeadline(now: nat) returns (expired: bool)
      modifies this
      ensures Abs() == Expire(old(Abs()), now) && expired == Expired(old(Abs()), now)
      ensures old(Valid()) ==> Valid()
    {
      expired := (plan.Some? || requested.Some?) && now >= deadline;
      if expired {
        AbortResync();
      }
    }

    method AdoptHost(newSession: string, host: nat)
      modifies this`floor, this`quarantined, this`lastPlan, this`floorSession, this`floorHost
      ensures floor == 0 && !quarantined && lastPlan == 0 && floorSession == newSession && floorHost == host
    {
      floor, quarantined, lastPlan, floorSession, floorHost := 0, false, 0, newSession, host;
    }

    method RetireHost(newSession: string, host: nat)
      modifies this
      ensures Abs() == Retire(old(Abs()), newSession, host)
    {
      if floorSession != newSession || floorHost != host {
        ghost var s := Abs();
        ClearTransaction();
        assert Abs() == s.(binding := None, plan := None, requested := None, assembler := Transfer.EMPTY, hostRoom := None);
        AdoptHost(newSession, host);
      }
    }

    method SeatRoster(newSession: string, newConnections: seq<nat>, newSlot: nat)
      modifies this`deliveries, this`deliveryConnections, this`rosterValid, this`session, this`connections, this`slot
      ensures deliveries == Restart(old(deliveryConnections), newConnections, old(deliveries))
      ensures deliveryConnections == newConnections && rosterValid && session == newSession
      ensures connections == newConnections && slot == newSlot
    {
      deliveries := Restart(deliveryConnections, newConnections, deliveries);
      deliveryConnections := newConnections;
      rosterValid, session, connections, slot := true, newSession, newConnections, newSlot;
    }

    method AdoptRoster(newSession: string, newConnections: seq<nat>, newSlot: nat)
      requires RosterFits(newSession, newConnections, newSlot)
      modifies this
      ensures Abs() == TakeRoster(old(Abs()), true, newSession, newConnections, newSlot)
    {
      RetireHost(newSession, newConnections[0]);
      SeatRoster(newSession, newConnections, newSlot);
    }

    method UpdateRoster(valid: bool, newSession: string, newConnections: seq<nat>, newSlot: nat)
      requires Valid()
      modifies this
      ensures Valid() && Abs() == TakeRoster(old(Abs()), valid, newSession, newConnections, newSlot)
    {
      RosterMatches(Abs(), valid, newSession, newConnections, newSlot);
      if valid && RosterFits(newSession, newConnections, newSlot) {
        AdoptRoster(newSession, newConnections, newSlot);
      } else {
        ClearRoster();
      }
    }

    method OnBinding(m: Binding)
      requires Valid()
      modifies this
      ensures Valid() && Abs() == TakeBinding(old(Abs()), m)
    {
      if m.session != session || m.host != At(connections, 0) || m.slot != slot || m.self != At(connections, slot)
         || (binding.Some? && m.delivery < binding.value.delivery) {
        return;
      }
      var changed := binding.None? || m.delivery != binding.value.delivery;
      binding := Some(m);
      if changed && m.delivery > 1 {
        quarantined := true;
      }
    }

    method RaiseSerials(ts: seq<Transfer.Target>)
      modifies this`deliveries
      ensures Abs() == Raise(old(Abs()), ts)
    {
      ghost var goal := Raise(Abs(), ts);
      var i := 0;
      assert ts[0..] == ts;
      while i < |ts|
        invariant i <= |ts| && Raise(Abs(), ts[i..]) == goal
      {
        var t := ts[i];
        assert ts[i..][1..] == ts[i + 1..];
        if t.slot <= 2 && t.slot != slot && t.connection != 0 && t.connection == At(connections, t.slot)
           && t.delivery > At(deliveries, t.slot) {
          deliveries := SetAt(deliveries, t.slot, t.delivery);
        }
        i := i + 1;
      }
    }

    method Reserialize(ts: seq<Transfer.Target>)
      modifies this`deliveries
      ensures deliveries == Reserialized(old(deliveries), ts)
    {
      var i := 0;
      assert ts[0..] == ts;
      while i < |ts|
        invariant i <= |ts| && Reserialized(deliveries, ts[i..]) == Reserialized(old(deliveries), ts)
      {
        assert ts[i..][1..] == ts[i + 1..];
        deliveries := SetAt(deliveries, ts[i].slot, ts[i].delivery);
        i := i + 1;
      }
    }

    method OpenPlan(m: Plan, now: nat)
      modifies this`deadline, this`assembler, this`lastPlan, this`requested, this`plan, this`quarantined
      ensures deadline == if old(Open(Abs())) then Sooner(old(deadline), now + m.remaining) else now + m.remaining
      ensures assembler == if old(plan).None? || m.phase != old(plan).value.phase then Transfer.EMPTY else old(assembler)
      ensures lastPlan == m.request.key.request && requested == None && plan == Some(m)
      ensures quarantined == (old(quarantined) || slot != 0)
    {
      if plan.None? && requested.None? {
        deadline := now + m.remaining;
      } else {
        deadline := Sooner(deadline, now + m.remaining);
      }
      if plan.None? || m.phase != plan.value.phase {
        assembler := Transfer.EMPTY;
      }
      lastPlan, requested, plan := m.request.key.request, None, Some(m);
      if slot != 0 {
        quarantined := true;
      }
    }

    method Admit(m: Plan, now: nat)
      modifies this
      ensures Abs() == AdmitPlan(old(Abs()), m, now)
    {
      ghost var s := Abs();
      Reserialize(m.targets);
      assert Abs() == s.(deliveries := Reserialized(s.deliveries, m.targets));
      OpenPlan(m, now);
    }

    // An open plan meets another: whether the new one is to be admitted.
    method MeetPlan(m: Plan, now: nat) returns (admit: bool)
      requires plan.Some?
      modifies this
      ensures admit <==> m.request.key == old(plan).value.request.key && SameRequest(old(plan).value, m)
                         && Rank(m.phase) > Rank(old(plan).value.phase)
      ensures admit ==> Abs() == old(Abs())
      ensures !admit ==> Abs() == Met(old(Abs()), m, now)
    {
      var p := plan.value;
      if m.request.key == p.request.key && (m.targets != p.targets || m.request != p.request) {
        AbortResync();
        return false;
      }
      if m.request.key == p.request.key && m.phase == p.phase {
        deadline := Sooner(deadline, now + m.remaining);
        return false;
      }
      return m.request.key == p.request.key && Rank(m.phase) >= Rank(p.phase);
    }

    method OnPlan(m: Plan, t1: nat, t2: nat) returns (outs: seq<Out>)
      requires Valid()
      modifies this
      ensures Valid() && (Abs(), outs) == TakePlan(old(Abs()), m, t1, t2)
    {
      PlanMatches(Abs(), m, t1, t2);
      outs := [];
      if !HasBinding(Abs()) || m.request.key.session != session || m.request.key.host != At(connections, 0) {
        return;
      }
      if !Selected(Abs(), m) {
        RaiseSerials(m.targets);
        return;
      }
      if plan.None? {
        if m.request.key.request <= lastPlan {
          return;
        }
      } else {
        var admit := MeetPlan(m, t1);
        if !admit {
          return;
        }
      }
      Admit(m, t1);
      if t2 >= deadline {
        AbortResync();
        return;
      }
      outs := [Planned(m)];
    }

    method OnBegin(b: Transfer.Begin)
      requires Valid()
      modifies this
      ensures Valid() && Abs() == TakeHeader(old(Abs()), b)
    {
      HeaderMatches(Abs(), b);
      if plan.None? || b.key != plan.value.request.key || b.phase != plan.value.phase || b.targets != plan.value.targets
         || b.room != plan.value.request.room {
        return;
      }
      if completed.Some? && b.key == completed.value.key && b.phase == completed.value.phase {
        if b != completed.value {
          AbortResync();
        }
        return;
      }
      var (a, ok) := Transfer.TakeBegin(assembler, b);
      assembler := a;
      if !ok {
        AbortResync();
      }
    }

    method OnPart(p: Transfer.Part)
      requires Valid()
      modifies this
      ensures Valid() && Abs() == ResyncClient.TakePiece(old(Abs()), p)
    {
      PieceMatches(Abs(), p);
      if plan.None? || p.key != plan.value.request.key
         || (completed.Some? && p.key == completed.value.key && p.phase == completed.value.phase) {
        return;
      }
      var (a, ok) := Transfer.TakePart(assembler, p);
      assembler := a;
      if !ok {
        AbortResync();
      }
    }

    method Restore(begin: Transfer.Begin, room: Room)
      modifies this`floor, this`hostRoom, this`quarantined, this`completed
      ensures floor == begin.cut && hostRoom == Some(room) && !quarantined && completed == Some(begin)
    {
      floor, hostRoom, quarantined, completed := begin.cut, Some(room), false, Some(begin);
    }

    method Finish(d: Transfer.Receiver, e: Transfer.End, now: nat) returns (outs: seq<Out>)
      requires plan.Some? && e.key == plan.value.request.key && !AlreadyDone(Abs(), e.key, e.phase)
      modifies this
      ensures (Abs(), outs) == TakeFinish(d, old(Abs()), e, now)
    {
      var begin := assembler.begin;
      var snapshot := Transfer.TakeEnd(d, assembler, e);
      assembler := Transfer.EMPTY;
      if begin.None? || snapshot.None? || now >= deadline {
        AbortResync();
        return [];
      }
      Restore(begin.value, snapshot.value.room);
      return [Restored(begin.value, snapshot.value)];
    }

    method OnEnd(d: Transfer.Receiver, e: Transfer.End, now: nat) returns (outs: seq<Out>)
      requires Valid()
      modifies this
      ensures Valid() && (Abs(), outs) == TakeFinish(d, old(Abs()), e, now)
    {
      FinishMatches(d, Abs(), e, now);
      if plan.None? || e.key != plan.value.request.key
         || (completed.Some? && e.key == completed.value.key && e.phase == completed.value.phase) {
        return [];
      }
      outs := Finish(d, e, now);
    }

    method OnResult(k: Transfer.Key, converged: bool)
      requires Valid()
      modifies this
      ensures Valid() && Abs() == TakeResult(old(Abs()), k, converged)
    {
      ResultMatches(Abs(), k, converged);
      if plan.None? {
        if requested.Some? && k == requested.value.key {
          requested := None;
        }
        return;
      }
      if k != plan.value.request.key {
        return;
      }
      if !converged && slot != 0 {
        quarantined := true;
      }
      plan := None;
      assembler := Transfer.EMPTY;
    }

    method OnEnvelope(c: Scope, p: Inner, now: nat) returns (outs: seq<Out>)
      requires Valid()
      modifies this
      ensures Valid() && (Abs(), outs) == TakeEnvelope(old(Abs()), c, p, now)
    {
      EnvelopeMatches(Abs(), c, p, now);
      outs := [];
      if !HasBinding(Abs()) || c.session != session || c.target != binding.value.self || c.targetDelivery != binding.value.delivery
         || !KnownSource(Abs(), c) {
        return;
      }
      if c.source == At(connections, 0) && c.kind == Native && !p.notice && c.hostSerial <= floor {
        return;
      }
      if quarantined && !p.ephemeral {
        return;
      }
      var expired := CheckDeadline(now);
      if !p.passes {
        return;
      }
      if p.room.Some? {
        hostRoom := p.room;
      }
      outs := [World(c, p)];
    }

    method SendRequest(m: Request, submitted: bool, now: nat)
      requires Valid()
      modifies this
      ensures Valid() && Abs() == TakeAsk(old(Abs()), m, submitted, now)
    {
      if !Asks(Abs(), m) || plan.Some? || requested.Some? {
        return;
      }
      requested := Some(m);
      deadline := now + TIMEOUT_MS;
      if !submitted {
        requested := None;
      }
    }
  }
}
