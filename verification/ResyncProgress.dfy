// What the resync client does hand out: exactly which plans and envelopes, and every snapshot that
// arrives whole under its plan in time.
module ResyncProgress {
  import opened Common
  import opened Snapshot
  import opened Transfer
  import opened ResyncClient
  import opened ResyncSafety

  // ---------------------------------------------------------------- a whole snapshot

  // The header is one of the open plan's own phase, not restored before.
  predicate Expects(s: State, b: Begin) {
    && s.connected && Ready(s) && !s.rejected && s.plan.Some?
    && b.key == s.plan.value.request.key && b.phase == s.plan.value.phase
    && b.targets == s.plan.value.targets && b.room == s.plan.value.request.room
    && (s.completed.Some? ==> s.completed.value.key != b.key || s.completed.value.phase != b.phase)
  }

  function Arrival(b: Begin, data: seq<byte>, x: Delivery): Event
    requires |data| <= MAX_SNAPSHOT_BYTES
  {
    match Deliver(b, data, x)
    case InBegin(h) => BeginIn(h)
    case InPart(p) => PartIn(p)
    case InEnd(e) => EndIn(e)
  }

  // The deliveries as they arrive, each at its own reading of the clock.
  function Arrivals(b: Begin, data: seq<byte>, ds: seq<Delivery>, ts: seq<Times>): seq<(Event, Times)>
    requires |ts| == |ds| && |data| <= MAX_SNAPSHOT_BYTES
  {
    if ds == [] then [] else [(Arrival(b, data, ds[0]), ts[0])] + Arrivals(b, data, ds[1..], ts[1..])
  }

  predicate AllInTime(ts: seq<Times>, deadline: nat) { forall i :: 0 <= i < |ts| ==> ts[i].t0 < deadline }

  lemma OneArrives(d: Receiver, s: State, b: Begin, data: seq<byte>, next: nat, x: Delivery, t: Times)
    requires Expects(s, b) && Announces(d, b, data) && s.assembler == Upto(b, data, next) && next <= b.count
    requires t.t0 < s.deadline && Reached([x], next, b.count).Some?
    ensures Step(d, s, Arrival(b, data, x), t)
            == (s.(assembler := Upto(b, data, Reached([x], next, b.count).value)), [])
  {
    if x.Index? {
      Transfer.TakePiece(d, b, data, next, x.i);
    }
  }

  lemma {:induction false} AllArrive(d: Receiver, s: State, b: Begin, data: seq<byte>, next: nat, ds: seq<Delivery>, ts: seq<Times>)
    requires Expects(s, b) && Announces(d, b, data) && s.assembler == Upto(b, data, next) && next <= b.count
    requires |ts| == |ds| && AllInTime(ts, s.deadline) && Reached(ds, next, b.count).Some?
    ensures After(d, s, Arrivals(b, data, ds, ts)) == s.(assembler := Upto(b, data, Reached(ds, next, b.count).value))
    decreases |ds|
  {
    if ds != [] {
      OneReached(ds, next, b.count);
      var more := Reached([ds[0]], next, b.count).value;
      OneArrives(d, s, b, data, next, ds[0], ts[0]);
      AllArrive(d, s.(assembler := Upto(b, data, more)), b, data, more, ds[1..], ts[1..]);
      assert Arrivals(b, data, ds, ts)[1..] == Arrivals(b, data, ds[1..], ts[1..]);
    }
  }

  lemma OneReached(ds: seq<Delivery>, next: nat, n: nat)
    requires ds != [] && next <= n && Reached(ds, next, n).Some?
    ensures Reached([ds[0]], next, n).Some? && Reached([ds[0]], next, n).value <= n
    ensures Reached(ds, next, n) == Reached(ds[1..], Reached([ds[0]], next, n).value, n)
  {
    assert [ds[0]][1..] == [];
  }

  lemma HeaderArrives(d: Receiver, s: State, b: Begin, data: seq<byte>, t: Times)
    requires Expects(s, b) && Announces(d, b, data) && s.assembler == EMPTY && t.t0 < s.deadline
    ensures Step(d, s, BeginIn(b), t) == (s.(assembler := Upto(b, data, 0)), [])
  {
    UptoAll(d, b, data);
  }

  lemma EndArrives(d: Receiver, s: State, b: Begin, data: seq<byte>, snapshot: Snapshot, t: Times)
    requires Expects(s, b) && Announces(d, b, data) && s.assembler == Upto(b, data, b.count)
    requires d.decode(data) == Some(snapshot) && snapshot.room == b.room && t.t0 < s.deadline && t.t1 < s.deadline
    ensures Step(d, s, EndIn(End(b.key, b.phase, b.cut, b.total, b.sha)), t)
            == (s.(assembler := EMPTY, floor := b.cut, hostRoom := Some(b.room), quarantined := false, completed := Some(b)),
                [Restored(b, snapshot)])
  {
    UptoAll(d, b, data);
  }

  // Whatever the state: a header of the open plan, all its parts in order with any repeats, and its
  // end, each before the deadline, restore exactly the snapshot that was sent.
  lemma WholeSnapshotRestores(d: Receiver, s: State, b: Begin, data: seq<byte>, snapshot: Snapshot, ds: seq<Delivery>,
                              first: Times, ts: seq<Times>, last: Times)
    requires Expects(s, b) && Announces(d, b, data) && s.assembler == EMPTY && InOrder(ds, 0, b.count)
    requires d.decode(data) == Some(snapshot) && snapshot.room == b.room
    requires |ts| == |ds| && AllInTime(ts, s.deadline) && first.t0 < s.deadline && last.t0 < s.deadline && last.t1 < s.deadline
    ensures var begun := Step(d, s, BeginIn(b), first).0;
            var held := After(d, begun, Arrivals(b, data, ds, ts));
            var (r, outs) := Step(d, held, EndIn(End(b.key, b.phase, b.cut, b.total, b.sha)), last);
            outs == [Restored(b, snapshot)] && !r.quarantined && r.floor == b.cut && r.plan == s.plan
  {
    HeaderArrives(d, s, b, data, first);
    var begun := s.(assembler := Upto(b, data, 0));
    AllArrive(d, begun, b, data, 0, ds, ts);
    EndArrives(d, s.(assembler := Upto(b, data, b.count)), b, data, snapshot, last);
  }

  // ---------------------------------------------------------------- plans and envelopes

  // The plan selects this client: it is the host, or one of the targets under its bound delivery.
  predicate Targets(s: State, m: Plan) {
    s.slot == 0 || (s.slot < 3 && s.binding.Some? && Target(s.slot, s.binding.value.self, s.binding.value.delivery) in m.targets)
  }

  lemma SelectedIff(s: State, m: Plan)
    requires s.binding.Some? && s.slot < 3
    ensures Selected(s, m) <==> Targets(s, m)
  {
    if Targets(s, m) && s.slot != 0 {
      var i :| 0 <= i < |m.targets| && m.targets[i] == Target(s.slot, s.binding.value.self, s.binding.value.delivery);
      assert Selected(s, m);
    }
  }

  // A plan is handed out exactly when it is of the bound session and host, selects this client, is
  // the first of a newer request or a later phase of the same one, and its time is not over.
  lemma PlannedIff(d: Receiver, s: State, m: Plan, t: Times)
    requires !Expired(s, t.t0)
    ensures Step(d, s, PlanIn(m), t).1 == [Planned(m)] <==>
            && s.connected && !s.rejected && HasBinding(s)
            && m.request.key.session == s.session && m.request.key.host == At(s.connections, 0) && Targets(s, m)
            && (if s.plan.None? then m.request.key.request > s.lastPlan
                else m.request == s.plan.value.request && m.targets == s.plan.value.targets
                     && s.plan.value.phase == Bootstrap && m.phase == Checkpoint)
            && t.t2 < t.t1 + m.remaining && (Open(s) ==> t.t2 < s.deadline)
    ensures Step(d, s, PlanIn(m), t).1 in [[], [Planned(m)]]
  {
    if HasBinding(s) {
      SelectedIff(s, m);
    }
    PlanOutcome(s, m, t.t1, t.t2);
  }

  // An envelope is handed out exactly when its sender is a current connection under its current
  // delivery, its receiver is this client under its own, and neither floor nor quarantine holds it.
  lemma EnvelopeIff(d: Receiver, s: State, c: Scope, p: Inner, t: Times)
    requires !Expired(s, t.t0)
    ensures Step(d, s, Envelope(c, p), t).1 == [World(c, p)] <==>
            && s.connected && !s.rejected && HasBinding(s) && p.passes
            && c.session == s.session && c.target == At(s.connections, s.slot) && c.targetDelivery == s.binding.value.delivery
            && (exists i :: 0 <= i < 3 && At(s.connections, i) == c.source != 0 && At(s.deliveries, i) == c.sourceDelivery)
            && (c.source == At(s.connections, 0) && c.kind == Native && !p.notice ==> c.hostSerial > s.floor)
            && (s.quarantined ==> p.ephemeral)
    ensures Step(d, s, Envelope(c, p), t).1 in [[], [World(c, p)]]
  {
    if KnownSource(s, c) {
      var i :| 0 <= i < 3 && At(s.connections, i) != 0 && At(s.connections, i) == c.source && c.sourceDelivery == At(s.deliveries, i);
      assert At(s.connections, i) == c.source != 0 && At(s.deliveries, i) == c.sourceDelivery;
    }
  }

  // A result ends the open plan exactly when it names its request.
  lemma ResultIff(d: Receiver, s: State, k: Key, converged: bool, t: Times)
    requires s.connected && Ready(s) && !s.rejected && !Expired(s, t.t0) && s.plan.Some?
    ensures var (r, outs) := Step(d, s, ResultIn(k, converged), t);
            && outs == [] && (r.plan.None? <==> k == s.plan.value.request.key)
            && (r.plan.Some? ==> r == s)
            && (r.plan.None? ==> r.assembler == EMPTY && r.quarantined == (s.quarantined || (!converged && s.slot != 0)))
  {
  }
}
