// What the resync client agrees with its session (common/src/NetworkClient.cpp): the delivery serials
// of the connections, the binding, the roster and the time a transaction is given.
module ResyncSerials {
  import opened Common
  import opened Transfer
  import opened ResyncClient

  // No two targets name one slot.
  predicate Apart(ts: seq<Target>) { forall i, j :: 0 <= i < j < |ts| ==> ts[i].slot != ts[j].slot }

  // The serial a plan gives a slot.
  function Given(ts: seq<Target>, slot: nat): Option<nat> {
    if ts == [] then None else if ts[0].slot == slot then Some(ts[0].delivery) else Given(ts[1..], slot)
  }

  lemma {:induction false} ReserializedElsewhere(deliveries: seq<nat>, ts: seq<Target>, slot: nat)
    requires forall i :: 0 <= i < |ts| ==> ts[i].slot != slot
    ensures |Reserialized(deliveries, ts)| == |deliveries| && At(Reserialized(deliveries, ts), slot) == At(deliveries, slot)
    decreases |ts|
  {
    if ts != [] {
      ReserializedElsewhere(SetAt(deliveries, ts[0].slot, ts[0].delivery), ts[1..], slot);
    }
  }

  // An admitted plan sets exactly its targets' serials.
  lemma {:induction false} TargetsAreReserialized(deliveries: seq<nat>, ts: seq<Target>, slot: nat)
    requires Apart(ts) && slot < |deliveries|
    ensures At(Reserialized(deliveries, ts), slot)
            == if Given(ts, slot).Some? then Given(ts, slot).value else At(deliveries, slot)
    decreases |ts|
  {
    if ts != [] {
      var next := SetAt(deliveries, ts[0].slot, ts[0].delivery);
      if ts[0].slot == slot {
        ReserializedElsewhere(next, ts[1..], slot);
      } else {
        TargetsAreReserialized(next, ts[1..], slot);
      }
    }
  }

  // A target's serial, where it names another slot's current connection.
  function Learnt(s: State, ts: seq<Target>, slot: nat): nat {
    if ts == [] then 0
    else if ts[0].slot == slot && slot != s.slot && ts[0].connection != 0 && ts[0].connection == At(s.connections, slot) then
      ts[0].delivery
    else Learnt(s, ts[1..], slot)
  }

  lemma {:induction false} RaisedElsewhere(s: State, ts: seq<Target>, slot: nat)
    requires forall i :: 0 <= i < |ts| ==> ts[i].slot != slot
    ensures At(Raise(s, ts).deliveries, slot) == At(s.deliveries, slot)
    decreases |ts|
  {
    if ts != [] {
      RaisedElsewhere(Raise(s, [ts[0]]), ts[1..], slot);
      RaiseOne(s, ts);
    }
  }

  lemma RaiseOne(s: State, ts: seq<Target>)
    requires ts != []
    ensures Raise(s, ts) == Raise(Raise(s, [ts[0]]), ts[1..])
  {
    var one := Raise(s, [ts[0]]);
    assert [ts[0]][1..] == [];
    RaiseKeeps(s, [ts[0]]);
  }

  lemma {:induction false} NothingLearnt(s: State, ts: seq<Target>, slot: nat)
    requires forall i :: 0 <= i < |ts| ==> ts[i].slot != slot
    ensures Learnt(s, ts, slot) == 0
    decreases |ts|
  {
    if ts != [] {
      NothingLearnt(s, ts[1..], slot);
    }
  }

  lemma {:induction false} SameLearnt(s: State, r: State, ts: seq<Target>, slot: nat)
    requires r.slot == s.slot && r.connections == s.connections
    ensures Learnt(r, ts, slot) == Learnt(s, ts, slot)
    decreases |ts|
  {
    if ts != [] {
      SameLearnt(s, r, ts[1..], slot);
    }
  }

  // A bystander's serial of another slot becomes the greater of its own and the target's; its own
  // slot's, and any other connection's, is never touched.
  lemma {:induction false} BystanderLearns(s: State, ts: seq<Target>, slot: nat)
    requires Apart(ts) && slot < 3 && |s.deliveries| == 3
    ensures var had := At(s.deliveries, slot);
            At(Raise(s, ts).deliveries, slot) == if Learnt(s, ts, slot) > had then Learnt(s, ts, slot) else had
    decreases |ts|
  {
    if ts != [] {
      RaiseOne(s, ts);
      var r := Raise(s, [ts[0]]);
      RaiseKeeps(s, [ts[0]]);
      assert [ts[0]][1..] == [] && Raise(r, []) == r;
      if ts[0].slot == slot {
        RaisedElsewhere(r, ts[1..], slot);
        NothingLearnt(s, ts[1..], slot);
      } else {
        SameLearnt(s, r, ts[1..], slot);
        BystanderLearns(r, ts[1..], slot);
      }
    }
  }

  // A roster that fits replaces what was agreed exactly when the session or the host connection is
  // another one, and restarts a slot's serial exactly when its connection is.
  lemma RosterIff(d: Receiver, s: State, session: string, connections: seq<nat>, slot: nat, t: Times)
    requires s.connected && !s.rejected && !Expired(s, t.t0) && RosterFits(session, connections, slot)
    ensures var r := Step(d, s, Roster(true, session, connections, slot, false), t).0;
            && Ready(r) && r.session == session && r.connections == connections && r.slot == slot
            && (if session == s.floorSession && connections[0] == s.floorHost then
                  r.binding == s.binding && r.plan == s.plan && r.requested == s.requested && r.floor == s.floor
                  && r.quarantined == s.quarantined && r.lastPlan == s.lastPlan && r.assembler == s.assembler
                else r.binding.None? && !Open(r) && r.floor == 0 && !r.quarantined && r.lastPlan == 0 && r.assembler == EMPTY)
            && forall i :: 0 <= i < 3 ==>
                 At(r.deliveries, i) == if At(s.deliveryConnections, i) == connections[i] then At(s.deliveries, i) else 1
  {
  }

  // A binding is taken exactly when it is of this session, host, slot and connection and not older
  // than the one held; a changed one past the first delivery quarantines.
  lemma BoundIff(d: Receiver, s: State, m: Binding, t: Times)
    requires s.connected && Ready(s) && !s.rejected && !Expired(s, t.t0) && s.binding != Some(m)
    ensures var r := Step(d, s, Bind(m), t).0;
            var taken := m.session == s.session && m.host == At(s.connections, 0) && m.slot == s.slot
                         && m.self == At(s.connections, s.slot) && (s.binding.Some? ==> m.delivery >= s.binding.value.delivery);
            var changed := m.delivery > 1 && (s.binding.Some? ==> m.delivery != s.binding.value.delivery);
            && (r.binding == Some(m) <==> taken) && (!taken ==> r == s)
            && (taken ==> r.quarantined == (s.quarantined || changed))
  {
  }

  // The first plan of a transaction gives it its time, and a later one can only bring that nearer.
  lemma PlanTime(d: Receiver, s: State, m: Plan, t: Times)
    requires !Expired(s, t.t0) && Step(d, s, PlanIn(m), t).1 == [Planned(m)]
    ensures var r := Step(d, s, PlanIn(m), t).0;
            && r.plan == Some(m) && r.lastPlan == m.request.key.request && r.requested.None?
            && (!Open(s) ==> r.deadline == t.t1 + m.remaining)
            && (Open(s) ==> r.deadline == if t.t1 + m.remaining < s.deadline then t.t1 + m.remaining else s.deadline)
            && r.deliveries == Reserialized(s.deliveries, m.targets)
  {
    PlanOutcome(s, m, t.t1, t.t2);
  }

  // A host's request opens a transaction of its own time exactly when it is of the bound world, names
  // the room and connections as they are, nothing is open and the transport takes it.
  lemma AskOpensIff(d: Receiver, s: State, m: Request, submitted: bool, t: Times)
    requires !Open(s)
    ensures var r := Step(d, s, Ask(m, submitted), t).0;
            var fits := HasBinding(s) && !s.quarantined && s.slot == 0 && m.key.session == s.session
                        && m.key.host == At(s.connections, 0) && s.hostRoom == Some(m.room) && m.connections == s.connections;
            && (Open(r) <==> fits && submitted) && (Open(r) ==> r.requested == Some(m) && r.deadline == t.t0 + TIMEOUT_MS)
  {
  }
}
