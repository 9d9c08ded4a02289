// The client's side of a world resync (common/src/NetworkClient.cpp): which plans it admits, how
// long a transaction lives, when world packets are held back, and what a snapshot lets through.
module ResyncClient {
  import opened Common
  import opened Snapshot
  import opened Transfer

  const TIMEOUT_MS: nat := 30000
  const NO_SLOT: nat := 0xff

  datatype Binding = Binding(session: string, host: u64, self: u64, slot: nat, delivery: u64)
  datatype Request = Request(key: Key, room: Room, mask: byte, connections: seq<nat>)
  datatype Plan = Plan(request: Request, targets: seq<Target>, remaining: nat, phase: Phase)

  datatype SourceKind = Native | Simulation | Relay
  datatype Scope = Scope(
    session: string, source: u64, sourceDelivery: u64, hostSerial: u64, target: u64, targetDelivery: u64, kind: SourceKind)

  // What of an enveloped packet matters here: whether it is ephemeral or a diagnostic notice, the
  // room a RoomTransition names, and whether its own type's checks pass.
  datatype Inner = Inner(ephemeral: bool, notice: bool, room: Option<Room>, passes: bool)

  datatype State = State(
    connected: bool, rejected: bool, rosterValid: bool, session: string, slot: nat, connections: seq<nat>,
    floorSession: string, floorHost: nat, deliveryConnections: seq<nat>, deliveries: seq<nat>,
    binding: Option<Binding>, plan: Option<Plan>, requested: Option<Request>, hostRoom: Option<Room>,
    assembler: Assembler, completed: Option<Begin>,
    quarantined: bool, floor: nat, deadline: nat, lastPlan: nat)

  // What the application is handed. A request frame is passed on as it came, unread.
  datatype Out =
    | World(scope: Scope, inner: Inner)
    | Passed(frame: seq<byte>)
    | Planned(plan: Plan)
    | Restored(begin: Begin, snapshot: Snapshot)

  // Successive readings of the clock while one event is handled.
  datatype Times = Times(t0: nat, t1: nat, t2: nat)

  datatype Event =
    | Tick
    | Connect
    | Disconnect
    | Roster(valid: bool, rosterSession: string, rosterConnections: seq<nat>, rosterSlot: nat, pinBroken: bool)
    | Refused
    | Envelope(scope: Scope, inner: Inner)
    | RequestIn(frame: seq<byte>)
    | Bind(bound: Binding)
    | PlanIn(plan: Plan)
    | BeginIn(begin: Begin)
    | PartIn(part: Part)
    | EndIn(end: End)
    | ResultIn(key: Key, converged: bool)
    | MalformedRecord
    | Ask(request: Request, submitted: bool)
    | AckFailed
    | Give

  // ---------------------------------------------------------------- views

  function At(xs: seq<nat>, i: nat): nat { if i < |xs| then xs[i] else 0 }

  function SetAt(xs: seq<nat>, i: nat, v: nat): seq<nat> { if i < |xs| then xs[i := v] else xs }

  predicate Ready(s: State) { s.connected && s.rosterValid }

  predicate HasBinding(s: State) {
    && Ready(s) && s.binding.Some? && s.slot < 3
    && s.binding.value.session == s.session && s.binding.value.host == At(s.connections, 0)
    && s.binding.value.slot == s.slot && s.binding.value.self == At(s.connections, s.slot)
  }

  predicate WorldReady(s: State) { HasBinding(s) && !s.quarantined }

  predicate Open(s: State) { s.plan.Some? || s.requested.Some? }

  function Rank(p: Phase): nat { if p == Bootstrap then 0 else 1 }

  // ---------------------------------------------------------------- ending a transaction

  // abortResync: a friend stays quarantined.
  function Abort(s: State): State {
    if s.plan.Some? then s.(plan := None, assembler := EMPTY, quarantined := s.quarantined || s.slot != 0)
    else if s.requested.Some? then
      s.(requested := None, lastPlan := if s.lastPlan < s.requested.value.key.request then s.requested.value.key.request else s.lastPlan)
    else s
  }

  predicate Expired(s: State, t: nat) { Open(s) && t >= s.deadline }

  function Expire(s: State, t: nat): State { if Expired(s, t) then Abort(s) else s }

  // resetTransportState
  function Reset(s: State, connected: bool): State {
    State(connected, false, false, "", NO_SLOT, [0, 0, 0], "", 0, [0, 0, 0], [1, 1, 1], None, None, None, None, EMPTY, None,
          false, 0, 0, 0)
  }

  // ---------------------------------------------------------------- the roster

  predicate RosterFits(session: string, connections: seq<nat>, slot: nat) {
    session != "" && |connections| == 3 && connections[0] != 0 && slot < 3
  }

  predicate NewHost(s: State, session: string, host: nat) { s.floorSession != session || s.floorHost != host }

  // A different session or host connection retires everything agreed with the old one.
  function Retire(s: State, session: string, host: nat): State {
    if NewHost(s, session, host) then
      s.(binding := None, plan := None, requested := None, assembler := EMPTY, hostRoom := None, floor := 0,
         quarantined := false, lastPlan := 0, floorSession := session, floorHost := host)
    else s
  }

  // A connection not seen in its slot before starts at delivery 1.
  function Restart(was: seq<nat>, connections: seq<nat>, deliveries: seq<nat>): seq<nat> {
    [if At(was, 0) != At(connections, 0) then 1 else At(deliveries, 0),
     if At(was, 1) != At(connections, 1) then 1 else At(deliveries, 1),
     if At(was, 2) != At(connections, 2) then 1 else At(deliveries, 2)]
  }

  function TakeRoster(s: State, valid: bool, session: string, connections: seq<nat>, slot: nat): State {
    if valid && RosterFits(session, connections, slot) then
      Retire(s, session, connections[0]).(
        deliveries := Restart(s.deliveryConnections, connections, s.deliveries), deliveryConnections := connections,
        rosterValid := true, session := session, connections := connections, slot := slot)
    else s.(rosterValid := false, session := "", connections := [0, 0, 0], slot := NO_SLOT)
  }

  // ---------------------------------------------------------------- enveloped world packets

  predicate KnownSource(s: State, c: Scope) {
    exists i :: 0 <= i < 3 && At(s.connections, i) != 0 && At(s.connections, i) == c.source && c.sourceDelivery == At(s.deliveries, i)
  }

  predicate FromHost(s: State, c: Scope, p: Inner) {
    c.source == At(s.connections, 0) && c.kind == Native && !p.notice
  }

  predicate Admits(s: State, c: Scope, p: Inner) {
    && HasBinding(s) && c.session == s.session && c.target == s.binding.value.self && c.targetDelivery == s.binding.value.delivery
    && KnownSource(s, c)
    && (FromHost(s, c, p) ==> c.hostSerial > s.floor)
    && (s.quarantined ==> p.ephemeral)
  }

  // The admitted packet is handled as a packet of its own: the deadline is read again first.
  function TakeEnvelope(s: State, c: Scope, p: Inner, t: nat): (State, seq<Out>) {
    if !Admits(s, c, p) then (s, [])
    else
      var e := Expire(s, t);
      if !p.passes then (e, [])
      else (if p.room.Some? then e.(hostRoom := p.room) else e, [World(c, p)])
  }

  // ---------------------------------------------------------------- bindings and plans

  function TakeBinding(s: State, m: Binding): State {
    if m.session != s.session || m.host != At(s.connections, 0) || m.slot != s.slot || m.self != At(s.connections, s.slot)
       || (s.binding.Some? && m.delivery < s.binding.value.delivery) then s
    else
      var changed := s.binding.None? || m.delivery != s.binding.value.delivery;
      s.(binding := Some(m), quarantined := s.quarantined || (changed && m.delivery > 1))
  }

  predicate Selected(s: State, m: Plan)
    requires s.binding.Some?
  {
    s.slot == 0 || exists i :: 0 <= i < |m.targets| && m.targets[i].slot == s.slot
                      && m.targets[i].connection == s.binding.value.self && m.targets[i].delivery == s.binding.value.delivery
  }

  // A seat outside the plan only learns the targets' new delivery serials.
  function Raise(s: State, ts: seq<Target>): State
    decreases |ts|
  {
    if ts == [] then s
    else
      var t := ts[0];
      var next :=
        if t.slot > 2 || t.slot == s.slot || t.connection == 0 || t.connection != At(s.connections, t.slot)
           || t.delivery <= At(s.deliveries, t.slot) then s
        else s.(deliveries := SetAt(s.deliveries, t.slot, t.delivery));
      Raise(next, ts[1..])
  }

  function Reserialized(deliveries: seq<nat>, ts: seq<Target>): seq<nat>
    decreases |ts|
  {
    if ts == [] then deliveries else Reserialized(SetAt(deliveries, ts[0].slot, ts[0].delivery), ts[1..])
  }

  function Sooner(a: nat, b: nat): nat { if a <= b then a else b }

  // The plan becomes the open transaction, at time t.
  function AdmitPlan(s: State, m: Plan, t: nat): State {
    s.(deadline := if !Open(s) then t + m.remaining else Sooner(s.deadline, t + m.remaining),
       assembler := if s.plan.None? || m.phase != s.plan.value.phase then EMPTY else s.assembler,
       deliveries := Reserialized(s.deliveries, m.targets),
       lastPlan := m.request.key.request, requested := None, plan := Some(m),
       quarantined := s.quarantined || s.slot != 0)
  }

  predicate OfRoster(s: State, k: Key) { k.session == s.session && k.host == At(s.connections, 0) }

  predicate SameRequest(p: Plan, m: Plan) { m.targets == p.targets && m.request == p.request }

  // A later phase of the open request, or the first plan of a newer one.
  predicate Advances(s: State, m: Plan) {
    match s.plan
    case None => m.request.key.request > s.lastPlan
    case Some(p) => m.request.key == p.request.key && SameRequest(p, m) && Rank(m.phase) > Rank(p.phase)
  }

  function TakePlan(s: State, m: Plan, t1: nat, t2: nat): (State, seq<Out>) {
    if !HasBinding(s) || !OfRoster(s, m.request.key) then (s, [])
    else if !Selected(s, m) then (Raise(s, m.targets), [])
    else if s.plan.None? && m.request.key.request <= s.lastPlan then (s, [])
    else if s.plan.Some? && m.request.key == s.plan.value.request.key && !SameRequest(s.plan.value, m) then (Abort(s), [])
    else if s.plan.Some? && m.request.key == s.plan.value.request.key && m.phase == s.plan.value.phase then
      (s.(deadline := Sooner(s.deadline, t1 + m.remaining)), [])
    else if s.plan.Some? && (m.request.key != s.plan.value.request.key || Rank(m.phase) < Rank(s.plan.value.phase)) then (s, [])
    else
      var a := AdmitPlan(s, m, t1);
      if t2 >= a.deadline then (Abort(a), []) else (a, [Planned(m)])
  }

  // ---------------------------------------------------------------- the snapshot

  predicate AlreadyDone(s: State, k: Key, p: Phase) {
    s.completed.Some? && k == s.completed.value.key && p == s.completed.value.phase
  }

  function TakeHeader(s: State, b: Begin): State {
    if s.plan.None? || b.key != s.plan.value.request.key || b.phase != s.plan.value.phase || b.targets != s.plan.value.targets
       || b.room != s.plan.value.request.room then s
    else if AlreadyDone(s, b.key, b.phase) then (if b != s.completed.value then Abort(s) else s)
    else
      var (a, ok) := TakeBegin(s.assembler, b);
      if ok then s.(assembler := a) else Abort(s.(assembler := a))
  }

  function TakePiece(s: State, p: Part): State {
    if s.plan.None? || p.key != s.plan.value.request.key || AlreadyDone(s, p.key, p.phase) then s
    else
      var (a, ok) := TakePart(s.assembler, p);
      if ok then s.(assembler := a) else Abort(s.(assembler := a))
  }

  function TakeFinish(d: Receiver, s: State, e: End, t: nat): (State, seq<Out>) {
    if s.plan.None? || e.key != s.plan.value.request.key || AlreadyDone(s, e.key, e.phase) then (s, [])
    else
      var begin := s.assembler.begin;
      var snapshot := TakeEnd(d, s.assembler, e);
      var r := s.(assembler := EMPTY);
      if begin.None? || snapshot.None? then (Abort(r), [])
      else if t >= r.deadline then (Abort(r), [])
      else (r.(floor := begin.value.cut, hostRoom := Some(snapshot.value.room), quarantined := false, completed := begin),
            [Restored(begin.value, snapshot.value)])
  }

  function TakeResult(s: State, k: Key, converged: bool): State {
    if s.plan.None? then (if s.requested.Some? && k == s.requested.value.key then s.(requested := None) else s)
    else if k != s.plan.value.request.key then s
    else s.(plan := None, assembler := EMPTY, quarantined := s.quarantined || (!converged && s.slot != 0))
  }

  // ---------------------------------------------------------------- one event

  predicate IsResync(e: Event) { e.PlanIn? || e.BeginIn? || e.PartIn? || e.EndIn? || e.ResultIn? || e.MalformedRecord? }

  function Dispatch(d: Receiver, s: State, e: Event, t: Times): (State, seq<Out>) {
    match e
    case Envelope(c, p) => TakeEnvelope(s, c, p, t.t1)
    case RequestIn(frame) => (s, [Passed(frame)])
    case Bind(m) => (TakeBinding(s, m), [])
    case PlanIn(m) => TakePlan(s, m, t.t1, t.t2)
    case BeginIn(b) => (TakeHeader(s, b), [])
    case PartIn(p) => (TakePiece(s, p), [])
    case EndIn(f) => TakeFinish(d, s, f, t.t1)
    case ResultIn(k, converged) => (TakeResult(s, k, converged), [])
    case MalformedRecord => (if s.plan.Some? then Abort(s) else s, [])
    case _ => (s, [])
  }

  // A packet arrives: the deadline first, then readiness, then its handler. A ResyncRequest frame
  // is a world packet but not a scoped one, so it comes without an envelope and meets no binding,
  // source, floor or quarantine.
  function Receive(d: Receiver, s: State, e: Event, t: Times): (State, seq<Out>) {
    if !s.connected then (s, [])
    else
      var x := Expire(s, t.t0);
      if Expired(s, t.t0) && IsResync(e) then (x, [])
      else if !Ready(x) || x.rejected then (x, [])
      else Dispatch(d, x, e, t)
  }

  predicate Asks(s: State, m: Request) {
    && WorldReady(s) && s.slot == 0 && OfRoster(s, m.key) && s.hostRoom == Some(m.room) && m.connections == s.connections
    && (s.plan.Some? ==> m.key == s.plan.value.request.key)
    && (s.requested.Some? ==> m.key == s.requested.value.key)
  }

  // sendResyncRequestObserved: the first submission opens the transaction, if it is accepted.
  function TakeAsk(s: State, m: Request, submitted: bool, t: nat): State {
    if !Asks(s, m) || Open(s) then s
    else s.(requested := if submitted then Some(m) else None, deadline := t + TIMEOUT_MS)
  }

  function Step(d: Receiver, s: State, e: Event, t: Times): (State, seq<Out>) {
    match e
    case Tick => (Expire(Expire(s, t.t0), t.t1), [])
    case Connect => (Reset(s, true), [])
    case Disconnect => (Reset(s, false), [])
    case Roster(valid, session, connections, slot, pinBroken) =>
      if !s.connected then (s, [])
      else
        var x := Expire(s, t.t0);
        if x.rejected then (x, [])
        else if pinBroken then (Reset(x, false), [])
        else (TakeRoster(x, valid, session, connections, slot), [])
    case Refused => if s.connected then (Expire(s, t.t0).(rejected := true, rosterValid := false), []) else (s, [])
    case Ask(m, submitted) => (TakeAsk(s, m, submitted, t.t0), [])
    case AckFailed => (if s.plan.Some? && HasBinding(s) && s.slot != 0 then s.(quarantined := true) else s, [])
    case Give => (Abort(s), [])
    case _ => Receive(d, s, e, t)
  }

  // ---------------------------------------------------------------- what every step keeps

  // A transfer in progress is one of the open plan's own phase.
  predicate Matches(s: State) {
    && Held(s.assembler)
    && (s.assembler.begin.Some? ==>
          && s.plan.Some?
          && s.assembler.begin.value.key == s.plan.value.request.key && s.assembler.begin.value.phase == s.plan.value.phase
          && s.assembler.begin.value.targets == s.plan.value.targets && s.assembler.begin.value.room == s.plan.value.request.room)
    && (s.plan.Some? ==> s.lastPlan == s.plan.value.request.key.request && s.requested.None?)
  }

  lemma AbortMatches(s: State)
    requires Matches(s)
    ensures Matches(Abort(s)) && !Open(Abort(s))
  {
  }

  lemma ExpireMatches(s: State, t: nat)
    requires Matches(s)
    ensures Matches(Expire(s, t))
  {
  }

  lemma {:induction false} RaiseKeeps(s: State, ts: seq<Target>)
    ensures Raise(s, ts) == s.(deliveries := Raise(s, ts).deliveries)
    decreases |ts|
  {
    if ts != [] {
      var t := ts[0];
      var next :=
        if t.slot > 2 || t.slot == s.slot || t.connection == 0 || t.connection != At(s.connections, t.slot)
           || t.delivery <= At(s.deliveries, t.slot) then s
        else s.(deliveries := SetAt(s.deliveries, t.slot, t.delivery));
      RaiseKeeps(next, ts[1..]);
    }
  }

  // What handling a plan can come to.
  lemma PlanOutcome(s: State, m: Plan, t1: nat, t2: nat)
    ensures var (r, outs) := TakePlan(s, m, t1, t2);
            || (outs == [] && (r == s || r == Raise(s, m.targets)))
            || (outs == [] && s.plan.Some? && (r == Abort(s) || r == s.(deadline := Sooner(s.deadline, t1 + m.remaining))))
            || (Admitted(s, m) && outs == [] && r == Abort(AdmitPlan(s, m, t1)))
            || (Admitted(s, m) && t2 < AdmitPlan(s, m, t1).deadline && outs == [Planned(m)] && r == AdmitPlan(s, m, t1))
  {
  }

  predicate Admitted(s: State, m: Plan) {
    HasBinding(s) && OfRoster(s, m.request.key) && Selected(s, m) && Advances(s, m)
  }

  lemma AdmitMatches(s: State, m: Plan, t: nat)
    requires Matches(s) && Advances(s, m)
    ensures Matches(AdmitPlan(s, m, t))
  {
  }

  lemma PlanMatches(s: State, m: Plan, t1: nat, t2: nat)
    requires Matches(s)
    ensures Matches(TakePlan(s, m, t1, t2).0)
  {
    PlanOutcome(s, m, t1, t2);
    RaiseKeeps(s, m.targets);
    AbortMatches(s);
    if Admitted(s, m) {
      AdmitMatches(s, m, t1);
      AbortMatches(AdmitPlan(s, m, t1));
    }
  }

  lemma HeaderMatches(s: State, b: Begin)
    requires Matches(s)
    ensures Matches(TakeHeader(s, b))
  {
  }

  lemma PieceMatches(s: State, p: Part)
    requires Matches(s)
    ensures Matches(TakePiece(s, p))
  {
  }

  lemma EnvelopeMatches(s: State, c: Scope, p: Inner, t: nat)
    requires Matches(s)
    ensures Matches(TakeEnvelope(s, c, p, t).0)
  {
    ExpireMatches(s, t);
  }

  lemma FinishMatches(d: Receiver, s: State, e: End, t: nat)
    requires Matches(s)
    ensures Matches(TakeFinish(d, s, e, t).0)
  {
  }

  lemma ResultMatches(s: State, k: Key, converged: bool)
    requires Matches(s)
    ensures Matches(TakeResult(s, k, converged))
  {
  }

  lemma DispatchMatches(d: Receiver, s: State, e: Event, t: Times)
    requires Matches(s)
    ensures Matches(Dispatch(d, s, e, t).0)
  {
    match e
    case Envelope(c, p) => EnvelopeMatches(s, c, p, t.t1);
    case PlanIn(m) => PlanMatches(s, m, t.t1, t.t2);
    case BeginIn(b) => HeaderMatches(s, b);
    case PartIn(p) => PieceMatches(s, p);
    case EndIn(f) => FinishMatches(d, s, f, t.t1);
    case ResultIn(k, converged) => ResultMatches(s, k, converged);
    case MalformedRecord => AbortMatches(s);
    case _ =>
  }

  lemma ReceiveMatches(d: Receiver, s: State, e: Event, t: Times)
    requires Matches(s)
    ensures Matches(Receive(d, s, e, t).0)
  {
    ExpireMatches(s, t.t0);
    DispatchMatches(d, Expire(s, t.t0), e, t);
  }

  lemma ResetMatches(s: State, nowConnected: bool)
    ensures Matches(Reset(s, nowConnected))
  {
  }

  lemma RosterMatches(s: State, valid: bool, session: string, connections: seq<nat>, slot: nat)
    requires Matches(s)
    ensures Matches(TakeRoster(s, valid, session, connections, slot))
  {
  }

  lemma StepMatches(d: Receiver, s: State, e: Event, t: Times)
    requires Matches(s)
    ensures Matches(Step(d, s, e, t).0)
  {
    ExpireMatches(s, t.t0);
    match e
    case Tick => ExpireMatches(Expire(s, t.t0), t.t1);
    case Connect => ResetMatches(s, true);
    case Disconnect => ResetMatches(s, false);
    case Roster(valid, session, connections, slot, _) =>
      ResetMatches(Expire(s, t.t0), false);
      RosterMatches(Expire(s, t.t0), valid, session, connections, slot);
    case Give => AbortMatches(s);
    case Refused =>
    case Ask(_, _) =>
    case AckFailed =>
    case _ => ReceiveMatches(d, s, e, t);
  }
}
