// The combat-admission barrier (inject/src/CombatAdmission.hpp): a lease that keeps groups of the
// game's frozen mask set until every seat has acknowledged, or until the hold fails.
module Admission {
  import opened Common

  const DEADLINE_MS: nat := 15000
  const GROUP0_CALLER: nat := 0x3acc03
  const GROUP1_CALLER: nat := 0x3acc0d
  const OWNABLE: set<nat> := {3, 4}
  datatype Place = Place(world: u16, room: u16, door: u16, mapProgram: u16, battle: u16, event: u16)

  const TARGET: Place := Place(2, 0x14, 0, 137, 137, 137)

  predicate FromMansion(d: Place) { d.world == 2 && d.room == 0x13 && d.battle == 134 }

  datatype EventFreeze = Unknown | Freezes | Spares

  // What the adapter samples of the game. The mask is the set of frozen groups.
  datatype View = View(
    readable: bool, load: u32, transition: u32, pending: bool, room: Place, eventContext: u64, eventFreeze: EventFreeze,
    cutscene: int, mask: set<nat>, menu: nat, inField: bool)

  datatype Peer = Peer(connection: u64, delivery: u64, downedEpoch: u32)

  // What the session reports; the two friend seats are 1 and 2.
  datatype Session = Session(
    host: bool, generation: u32, hostDelivery: u64, own: Peer, one: Peer, two: Peer, publicationPending: bool, hostDowned: bool)

  datatype Phase = Idle | Held | Releasing | Done
  datatype Outcome =
    | Undecided | Arrived | Deadline | SeatLeft | SeatReplaced | SessionRetired | HostDowned | PeerDowned
    | Transition | LoadChanged | Shutdown | NativeCleared

  datatype Seat = Seat(connection: u64, delivery: u64, required: bool, acked: bool)

  datatype Lease = Lease(
    incarnation: nat, challenge: u64, generation: u32, load: u32, transition: u32, epoch: u32, hostDelivery: u64,
    eventContext: u64, deferredMs: u64, deferred: set<nat>, owned: set<nat>, released: set<nat>, one: Seat, two: Seat,
    phase: Phase, outcome: Outcome, retired: bool)

  datatype Armed = Armed(requested: bool, bound: bool, transition: u32, load: u32)

  datatype Barrier = Barrier(enabled: bool, lease: Lease, armed: Armed, incarnations: nat)

  datatype Action = Nothing | Release(groups: set<nat>, incarnation: nat) | Retire(incarnation: nat)

  const EMPTY_SEAT := Seat(0, 0, false, false)
  const UNARMED := Armed(false, false, 0, 0)
  const NO_LEASE := Lease(0, 0, 0, 0, 0, 0, 0, 0, 0, {}, {}, {}, EMPTY_SEAT, EMPTY_SEAT, Idle, Undecided, false)

  function Start(enabled: bool): Barrier { Barrier(enabled, NO_LEASE, UNARMED, 0) }

  predicate Live(b: Barrier) { b.lease.phase == Held || b.lease.phase == Releasing }

  function HeldGroups(l: Lease): set<nat> { l.deferred + l.owned }

  // ---------------------------------------------------------------- arming

  function NoteRequest(b: Barrier, from: Place, to: Place, transition: u32): Barrier {
    b.(armed := if FromMansion(from) && to == TARGET then Armed(true, false, transition, 0) else UNARMED)
  }

  // A lease is decided while it is held, and keeps the outcome it was given first.
  function Decide(l: Lease, outcome: Outcome): Lease {
    if l.phase != Held then l else l.(outcome := outcome, phase := Releasing)
  }

  function RetireLease(l: Lease): Lease { Decide(l, LoadChanged).(retired := true, phase := Done) }

  // A lease of an older load is retired, and an armed request is bound to this load.
  function NoteLoad(b: Barrier, load: u32, transition: u32): (Barrier, Action) {
    var stale := Live(b) && b.lease.load != load;
    var armed := if b.armed.requested && b.armed.transition == transition then b.armed.(load := load, bound := true) else UNARMED;
    if stale then (b.(lease := RetireLease(b.lease), armed := armed), Retire(b.lease.incarnation))
    else (b.(armed := armed), Nothing)
  }

  // ---------------------------------------------------------------- deferring

  function SeatFor(p: Peer): Seat {
    if p.connection == 0 then EMPTY_SEAT else Seat(p.connection, p.delivery, true, false)
  }

  // The armed teardown's first call, on the host, before its room is published, with a friend seated.
  predicate DefersFirst(b: Barrier, v: View, s: Session, challenge: u64) {
    && b.enabled && !Live(b) && b.armed.bound && v.readable && b.armed.load == v.load && b.armed.transition == v.transition
    && !v.pending && v.room == TARGET && v.eventContext != 0 && s.host && s.generation != 0 && s.hostDelivery != 0
    && s.publicationPending && (s.one.connection != 0 || s.two.connection != 0) && challenge != 0
  }

  // The same teardown's second call, straight after its first.
  predicate DefersSecond(b: Barrier, v: View) {
    && b.enabled && b.lease.phase == Held && b.lease.deferred == {0} && b.lease.load == v.load
    && b.lease.transition == v.transition && b.lease.eventContext == v.eventContext && v.readable
  }

  function NewLease(b: Barrier, v: View, s: Session, now: u64, challenge: u64): Lease {
    NO_LEASE.(incarnation := b.incarnations + 1, challenge := challenge, generation := s.generation,
              hostDelivery := s.hostDelivery, load := v.load, transition := v.transition, eventContext := v.eventContext,
              deferredMs := now, deferred := {0}, one := SeatFor(s.one), two := SeatFor(s.two), phase := Held)
  }

  // Whether this call of the game's group clear is deferred, and the barrier after it.
  function OnUnfreeze(b: Barrier, group: nat, caller: nat, v: View, s: Session, now: u64, challenge: u64): (Barrier, bool) {
    if group == 1 && caller == GROUP1_CALLER then
      if DefersSecond(b, v) then (b.(lease := b.lease.(deferred := {0, 1})), true) else (b, false)
    else if group == 0 && caller == GROUP0_CALLER && DefersFirst(b, v, s, challenge) then
      (b.(lease := NewLease(b, v, s, now, challenge), incarnations := b.incarnations + 1, armed := UNARMED), true)
    else (b, false)
  }

  // The groups a fresh lease freezes itself: those of 3 and 4 the game has not set.
  function OwnCandidates(b: Barrier, v: View): set<nat> {
    if b.lease.phase == Held && b.lease.deferred == {0} && b.lease.owned == {} then OWNABLE - v.mask else {}
  }

  function NoteOwned(b: Barrier, incarnation: nat, groups: set<nat>): Barrier {
    if incarnation != b.lease.incarnation || b.lease.phase != Held || b.lease.owned != {} then b
    else b.(lease := b.lease.(owned := groups * OWNABLE))
  }

  // ---------------------------------------------------------------- publication and acknowledgement

  function NotePublished(b: Barrier, epoch: u32, challenge: u64): Barrier {
    if b.lease.phase != Held || b.lease.epoch != 0 || epoch == 0 || challenge != b.lease.challenge then b
    else b.(lease := b.lease.(epoch := epoch))
  }

  datatype AckMessage = AckMessage(slot: nat, connection: u64, delivery: u64, epoch: u32, room: Place, challenge: u64)

  function SeatOf(l: Lease, slot: nat): Seat {
    if slot == 1 then l.one else if slot == 2 then l.two else EMPTY_SEAT
  }

  predicate Accepts(l: Lease, a: AckMessage) {
    && l.phase == Held && a.challenge == l.challenge && l.epoch != 0 && a.epoch == l.epoch && a.room == TARGET
    && SeatOf(l, a.slot).required && a.connection == SeatOf(l, a.slot).connection
    && (SeatOf(l, a.slot).delivery != 0 ==> a.delivery == SeatOf(l, a.slot).delivery)
    && !SeatOf(l, a.slot).acked
  }

  function TakeAck(b: Barrier, a: AckMessage): Barrier {
    if !Accepts(b.lease, a) then b
    else if a.slot == 1 then b.(lease := b.lease.(one := b.lease.one.(acked := true)))
    else b.(lease := b.lease.(two := b.lease.two.(acked := true)))
  }

  // ---------------------------------------------------------------- deciding

  predicate Missing(s: Seat) { s.required && !s.acked }

  function SeatFault(s: Seat, p: Peer): Outcome {
    if !s.required then Undecided
    else if p.connection == 0 then SeatLeft
    else if p.connection != s.connection || (s.delivery != 0 && p.delivery != s.delivery) then SeatReplaced
    else Undecided
  }

  function Since(now: u64, then_: u64): nat { Minus(now, then_, U64_RANGE) }

  function Evaluate(l: Lease, v: View, s: Session, now: u64): Outcome {
    if v.readable && v.load != l.load then LoadChanged
    else if v.readable && v.transition != l.transition then Transition
    else if v.readable && v.eventContext == 0 && v.mask * l.deferred == {} then NativeCleared
    else if s.generation == 0 || s.generation != l.generation || s.hostDelivery != l.hostDelivery || !s.host then SessionRetired
    else if SeatFault(l.one, s.one) != Undecided then SeatFault(l.one, s.one)
    else if SeatFault(l.two, s.two) != Undecided then SeatFault(l.two, s.two)
    else if s.hostDowned then HostDowned
    else if l.epoch != 0 && l.epoch in {s.own.downedEpoch, s.one.downedEpoch, s.two.downedEpoch} then PeerDowned
    else if l.epoch != 0 && !Missing(l.one) && !Missing(l.two) then Arrived
    else if Since(now, l.deferredMs) >= DEADLINE_MS then Deadline
    else Undecided
  }

  function Decided(l: Lease, v: View, s: Session, now: u64): Lease {
    if l.phase == Held && Evaluate(l, v, s, now) != Undecided then Decide(l, Evaluate(l, v, s, now)) else l
  }

  // Decides at most once, then releases when the game's identity allows it.
  function Service(b: Barrier, v: View, s: Session, now: u64): (Barrier, Action) {
    if !Live(b) then (b, Nothing)
    else
      var l := Decided(b.lease, v, s, now);
      var d := b.(lease := l);
      if l.phase != Releasing || !v.readable then (d, Nothing)
      else if v.load != l.load then (b.(lease := RetireLease(l)), Retire(l.incarnation))
      else if v.eventContext != 0 && v.eventFreeze != Spares then (d, Nothing)
      else if v.mask * HeldGroups(l) - l.released == {} then (b.(lease := RetireLease(l)), Retire(l.incarnation))
      else (d, Release(v.mask * HeldGroups(l) - l.released, l.incarnation))
  }

  function NoteReleased(b: Barrier, incarnation: nat, groups: set<nat>): Barrier {
    if incarnation != b.lease.incarnation || b.lease.phase != Releasing then b
    else b.(lease := b.lease.(released := b.lease.released + groups, phase := Done))
  }

  function BeforeTransition(b: Barrier): Barrier { b.(lease := Decide(b.lease, Transition)) }

  function RequestShutdown(b: Barrier): Barrier { b.(lease := Decide(b.lease, Shutdown)) }

  // What holds of every lease the barrier keeps.
  predicate LeaseShape(l: Lease) {
    && l.deferred <= {0, 1} && l.owned <= OWNABLE
    && (l.phase == Idle <==> l.incarnation == 0)
    && (l.phase == Idle || l.phase == Held <==> l.outcome == Undecided)
    && (l.phase == Held || l.phase == Releasing ==> l.released == {} && !l.retired)
    && (l.epoch == 0 ==> !l.one.acked && !l.two.acked)
  }

  // ---------------------------------------------------------------- the object

  class Machine {
    var enabled: bool
    var lease: Lease
    var armed: Armed
    var incarnations: nat

    function Abs(): Barrier
      reads this
    {
      Barrier(enabled, lease, armed, incarnations)
    }

    ghost predicate Valid()
      reads this
    {
      LeaseShape(lease)
    }

    constructor (enabled: bool)
      ensures Valid() && Abs() == Start(enabled)
    {
      this.enabled, lease, armed, incarnations := enabled, NO_LEASE, UNARMED, 0;
    }

    method Requested(from: Place, to: Place, transition: u32)
      requires Valid()
      modifies this
      ensures Valid() && Abs() == NoteRequest(old(Abs()), from, to, transition)
    {
      armed := UNARMED;
      if FromMansion(from) && to == TARGET {
        armed := armed.(transition := transition, requested := true);
      }
    }

    method Conclude(outcome: Outcome)
      modifies this
      ensures Abs() == old(Abs()).(lease := Decide(old(lease), outcome))
    {
      if lease.phase == Held {
        lease := lease.(outcome := outcome, phase := Releasing);
      }
    }

    method Abandon() returns (action: Action)
      modifies this
      ensures Abs() == old(Abs()).(lease := RetireLease(old(lease))) && action == Retire(old(lease).incarnation)
    {
      if lease.phase == Held {
        Conclude(LoadChanged);
      }
      lease := lease.(retired := true, phase := Done);
      return Retire(lease.incarnation);
    }

    method Loaded(load: u32, transition: u32) returns (action: Action)
      requires Valid()
      modifies this
      ensures Valid() && (Abs(), action) == NoteLoad(old(Abs()), load, transition)
    {
      action := Nothing;
      if (lease.phase == Held || lease.phase == Releasing) && lease.load != load {
        if lease.phase == Held {
          Conclude(LoadChanged);
        }
        action := Abandon();
      }
      if armed.requested && armed.transition == transition {
        armed := armed.(load := load, bound := true);
      } else {
        armed := UNARMED;
      }
    }

    method Unfreezing(group: nat, caller: nat, v: View, s: Session, now: u64, challenge: u64) returns (deferred: bool)
      requires Valid()
      modifies this
      ensures Valid() && (Abs(), deferred) == OnUnfreeze(old(Abs()), group, caller, v, s, now, challenge)
    {
      var first := group == 0 && caller == GROUP0_CALLER;
      var second := group == 1 && caller == GROUP1_CALLER;
      if (!first && !second) || !enabled {
        return false;
      }
      if second {
        if lease.phase != Held || lease.deferred != {0} || lease.load != v.load || lease.transition != v.transition
           || lease.eventContext != v.eventContext || !v.readable {
          return false;
        }
        assert {0} + {1} == {0, 1};
        lease := lease.(deferred := lease.deferred + {1});
        return true;
      }
      if lease.phase == Held || lease.phase == Releasing || !armed.bound {
        return false;
      }
      if !v.readable || armed.load != v.load || armed.transition != v.transition || v.pending {
        return false;
      }
      if v.room != TARGET || v.eventContext == 0 || !s.host || s.generation == 0 || s.hostDelivery == 0 || !s.publicationPending {
        return false;
      }
      var one, two := SeatFor(s.one), SeatFor(s.two);
      if (!one.required && !two.required) || challenge == 0 {
        return false;
      }
      incarnations := incarnations + 1;
      lease := NO_LEASE;
      lease := lease.(incarnation := incarnations, challenge := challenge, generation := s.generation, hostDelivery := s.hostDelivery);
      lease := lease.(load := v.load, transition := v.transition, eventContext := v.eventContext, deferredMs := now);
      lease := lease.(deferred := {0}, owned := {}, one := one, two := two, phase := Held);
      armed := UNARMED;
      return true;
    }

    method Acknowledge(a: AckMessage) returns (accepted: bool)
      requires Valid()
      modifies this
      ensures Valid() && Abs() == TakeAck(old(Abs()), a) && (accepted <==> Accepts(old(lease), a))
    {
      if lease.phase == Idle || lease.phase == Done || a.challenge != lease.challenge || lease.phase != Held || lease.epoch == 0 {
        return false;
      }
      if a.epoch != lease.epoch || a.room != TARGET || a.slot == 0 || a.slot >= 3 || !SeatOf(lease, a.slot).required {
        return false;
      }
      var seat := SeatOf(lease, a.slot);
      if a.connection != seat.connection || (seat.delivery != 0 && a.delivery != seat.delivery) || seat.acked {
        return false;
      }
      if a.slot == 1 {
        lease := lease.(one := seat.(acked := true));
      } else {
        lease := lease.(two := seat.(acked := true));
      }
      return true;
    }

    method Serve(v: View, s: Session, now: u64) returns (action: Action)
      requires Valid()
      modifies this
      ensures Valid() && (Abs(), action) == Service(old(Abs()), v, s, now)
    {
      if lease.phase != Held && lease.phase != Releasing {
        return Nothing;
      }
      if lease.phase == Held {
        var outcome := Evaluate(lease, v, s, now);
        if outcome != Undecided {
          Conclude(outcome);
        }
      }
      if lease.phase != Releasing || !v.readable {
        return Nothing;
      }
      if v.load != lease.load {
        action := Abandon();
        return;
      }
      if v.eventContext != 0 && v.eventFreeze != Spares {
        return Nothing;
      }
      var groups := v.mask * HeldGroups(lease) - lease.released;
      if groups == {} {
        action := Abandon();
        return;
      }
      return Release(groups, lease.incarnation);
    }

    method Replayed(incarnation: nat, groups: set<nat>)
      requires Valid()
      modifies this
      ensures Valid() && Abs() == NoteReleased(old(Abs()), incarnation, groups)
    {
      if incarnation == lease.incarnation && lease.phase == Releasing {
        lease := lease.(released := lease.released + groups);
        lease := lease.(phase := Done);
      }
    }
  }
}
