// What holds over every run of the resync client: the order of admitted plans, the deadline, the
// quarantine and the source floor.
module ResyncSafety {
  import opened Common
  import opened Snapshot
  import opened Transfer
  import opened ResyncClient

  // The session, its host connection or the transport is replaced.
  predicate Replaces(s: State, e: Event, t: Times) {
    match e
    case Connect => true
    case Disconnect => true
    case Roster(valid, session, connections, slot, pinBroken) =>
      s.connected && !s.rejected
      && (pinBroken || (valid && RosterFits(session, connections, slot) && NewHost(s, session, connections[0])))
    case _ => false
  }

  // The state with what has been handed out since the last replacement: the plans, and the cut of
  // the newest snapshot.
  datatype History = History(s: State, planned: seq<(nat, nat)>, cut: nat)

  function Mark(p: Plan): (nat, nat) { (p.request.key.request, Rank(p.phase)) }

  function Log(h: History, outs: seq<Out>): History
    decreases |outs|
  {
    if outs == [] then h
    else match outs[0]
      case World(_, _) => Log(h, outs[1..])
      case Passed(_) => Log(h, outs[1..])
      case Planned(p) => Log(h.(planned := h.planned + [Mark(p)]), outs[1..])
      case Restored(b, _) => Log(h.(cut := b.cut), outs[1..])
  }

  function Advance(d: Receiver, h: History, e: Event, t: Times): History {
    var (s, outs) := Step(d, h.s, e, t);
    if Replaces(h.s, e, t) then History(s, [], 0) else Log(h, outs).(s := s)
  }

  function Run(d: Receiver, h: History, run: seq<(Event, Times)>): History
    decreases |run|
  {
    if run == [] then h else Run(d, Advance(d, h, run[0].0, run[0].1), run[1..])
  }

  function Outs(d: Receiver, s: State, run: seq<(Event, Times)>): seq<Out>
    decreases |run|
  {
    if run == [] then [] else Step(d, s, run[0].0, run[0].1).1 + Outs(d, Step(d, s, run[0].0, run[0].1).0, run[1..])
  }

  // ---------------------------------------------------------------- the shape of one step

  // Nothing new is planned or restored.
  predicate Quiet(s: State, r: State) {
    (r.plan == s.plan || r.plan.None?) && s.lastPlan <= r.lastPlan && r.floor == s.floor
  }

  lemma TakePlanSteps(s: State, m: Plan, t1: nat, t2: nat)
    requires Matches(s)
    ensures var (r, outs) := TakePlan(s, m, t1, t2);
            || (outs == [] && Quiet(s, r))
            || (outs == [Planned(m)] && Advances(s, m) && r.plan == Some(m) && r.lastPlan == m.request.key.request
                && r.floor == s.floor && t2 < r.deadline && (s.slot != 0 ==> r.quarantined))
  {
    PlanOutcome(s, m, t1, t2);
    RaiseKeeps(s, m.targets);
  }

  lemma TakeFinishSteps(d: Receiver, s: State, f: End, t: nat)
    requires Matches(s)
    ensures var (r, outs) := TakeFinish(d, s, f, t);
            || (outs == [] && Quiet(s, r))
            || exists snapshot ::
                 && s.plan.Some? && s.assembler.begin.Some?
                 && outs == [Restored(s.assembler.begin.value, snapshot)]
                 && TakeEnd(d, s.assembler, f) == Some(snapshot)
                 && r == s.(assembler := EMPTY, floor := s.assembler.begin.value.cut, hostRoom := Some(snapshot.room),
                            quarantined := false, completed := s.assembler.begin)
                 && t < s.deadline
  {
  }

  lemma OtherSteps(d: Receiver, s: State, e: Event, t: Times)
    requires !e.PlanIn? && !e.EndIn?
    ensures var (r, outs) := Dispatch(d, s, e, t);
            && Quiet(s, r)
            && (outs == [] || (e.Envelope? && outs == [World(e.scope, e.inner)] && Admits(s, e.scope, e.inner))
                || (e.RequestIn? && outs == [Passed(e.frame)]))
  {
    match e
    case BeginIn(b) => HeaderQuiet(s, b);
    case PartIn(p) => PieceQuiet(s, p);
    case Envelope(_, _) => ExpireQuiet(s, t.t1);
    case _ =>
  }

  lemma HeaderQuiet(s: State, b: Begin)
    ensures Quiet(s, TakeHeader(s, b))
  {
    var a := s.(assembler := TakeBegin(s.assembler, b).0);
    assert Quiet(s, a) && Quiet(a, Abort(a));
  }

  lemma PieceQuiet(s: State, p: Part)
    ensures Quiet(s, ResyncClient.TakePiece(s, p))
  {
  }

  // ---------------------------------------------------------------- plans in order

  predicate Before(a: (nat, nat), b: (nat, nat)) { a.0 < b.0 || (a.0 == b.0 && a.1 < b.1) }

  predicate Increasing(marks: seq<(nat, nat)>) {
    forall i, j :: 0 <= i < j < |marks| ==> Before(marks[i], marks[j])
  }

  predicate Invariant(h: History) {
    && Matches(h.s)
    && h.s.floor == h.cut
    && Increasing(h.planned)
    && (h.planned != [] ==> h.planned[|h.planned| - 1].0 <= h.s.lastPlan)
    && (h.s.plan.Some? ==> h.planned != [] && h.planned[|h.planned| - 1] == Mark(h.s.plan.value))
  }

  lemma QuietInvariant(h: History, r: State)
    requires Invariant(h) && Quiet(h.s, r) && Matches(r)
    ensures Invariant(h.(s := r))
  {
  }

  lemma PlannedInvariant(h: History, m: Plan, r: State)
    requires Invariant(h) && Advances(h.s, m) && Matches(r) && r.plan == Some(m) && r.floor == h.s.floor
    ensures Invariant(History(r, h.planned + [Mark(m)], h.cut))
  {
  }

  lemma DispatchInvariant(d: Receiver, h: History, e: Event, t: Times)
    requires Invariant(h)
    ensures var (r, outs) := Dispatch(d, h.s, e, t); Invariant(Log(h, outs).(s := r))
  {
    var (r, outs) := Dispatch(d, h.s, e, t);
    DispatchMatches(d, h.s, e, t);
    if e.PlanIn? {
      TakePlanSteps(h.s, e.plan, t.t1, t.t2);
      if outs != [] {
        PlannedInvariant(h, e.plan, r);
        assert outs[1..] == [];
      } else {
        QuietInvariant(h, r);
      }
    } else if e.EndIn? {
      TakeFinishSteps(d, h.s, e.end, t.t1);
      if outs != [] {
        assert outs[1..] == [];
      } else {
        QuietInvariant(h, r);
      }
    } else {
      OtherSteps(d, h.s, e, t);
      QuietInvariant(h, r);
      if outs != [] {
        assert outs[1..] == [];
      }
    }
  }

  lemma ExpireQuiet(s: State, t: nat)
    ensures Quiet(s, Expire(s, t))
  {
  }

  lemma ReceiveInvariant(d: Receiver, h: History, e: Event, t: Times)
    requires Invariant(h)
    ensures var (r, outs) := Receive(d, h.s, e, t); Invariant(Log(h, outs).(s := r))
  {
    if h.s.connected {
      var x := Expire(h.s, t.t0);
      ExpireQuiet(h.s, t.t0);
      ExpireMatches(h.s, t.t0);
      QuietInvariant(h, x);
      if !(Expired(h.s, t.t0) && IsResync(e)) && Ready(x) && !x.rejected {
        DispatchInvariant(d, h.(s := x), e, t);
        LogForgets(h, x, Dispatch(d, x, e, t).1);
      }
    }
  }

  lemma {:induction false} LogForgets(h: History, x: State, outs: seq<Out>)
    ensures forall r :: Log(h.(s := x), outs).(s := r) == Log(h, outs).(s := r)
    decreases |outs|
  {
    if outs != [] {
      match outs[0]
      case World(_, _) => LogForgets(h, x, outs[1..]);
      case Passed(_) => LogForgets(h, x, outs[1..]);
      case Planned(p) => LogForgets(h.(planned := h.planned + [Mark(p)]), x, outs[1..]);
      case Restored(b, _) => LogForgets(h.(cut := b.cut), x, outs[1..]);
    }
  }

  predicate IsPacket(e: Event) {
    || e.Envelope? || e.RequestIn? || e.Bind? || e.PlanIn? || e.BeginIn? || e.PartIn? || e.EndIn? || e.ResultIn?
    || e.MalformedRecord?
  }

  // Everything that is not a packet: silent, and quiet unless it replaces the session.
  lemma ReplacingSteps(d: Receiver, s: State, e: Event, t: Times)
    requires Replaces(s, e, t)
    ensures Step(d, s, e, t).1 == []
    ensures var r := Step(d, s, e, t).0; r.floor == 0 && !Open(r)
  {
  }

  lemma KeptRoster(d: Receiver, s: State, e: Event, t: Times)
    requires e.Roster? && !Replaces(s, e, t)
    ensures Step(d, s, e, t).1 == [] && Quiet(s, Step(d, s, e, t).0)
    ensures s.quarantined ==> Step(d, s, e, t).0.quarantined
  {
    var x := Expire(s, t.t0);
    ExpireQuiet(s, t.t0);
    assert x.rejected == s.rejected && x.floorSession == s.floorSession && x.floorHost == s.floorHost;
  }

  lemma SilentSteps(d: Receiver, s: State, e: Event, t: Times)
    requires !IsPacket(e) && !Replaces(s, e, t)
    ensures Step(d, s, e, t).1 == [] && Quiet(s, Step(d, s, e, t).0)
    ensures s.quarantined ==> Step(d, s, e, t).0.quarantined
  {
    if e.Roster? {
      KeptRoster(d, s, e, t);
    } else {
      ExpireQuiet(s, t.t0);
    }
  }

  lemma ReplacedInvariant(s: State)
    requires Matches(s) && s.floor == 0 && !Open(s)
    ensures Invariant(History(s, [], 0))
  {
  }

  lemma StepInvariant(d: Receiver, h: History, e: Event, t: Times)
    requires Invariant(h)
    ensures Invariant(Advance(d, h, e, t))
  {
    if IsPacket(e) {
      ReceiveInvariant(d, h, e, t);
    } else {
      StepMatches(d, h.s, e, t);
      if Replaces(h.s, e, t) {
        ReplacingSteps(d, h.s, e, t);
        ReplacedInvariant(Step(d, h.s, e, t).0);
      } else {
        SilentSteps(d, h.s, e, t);
        QuietInvariant(h, Step(d, h.s, e, t).0);
      }
    }
  }

  lemma {:induction false} RunInvariant(d: Receiver, h: History, run: seq<(Event, Times)>)
    requires Invariant(h)
    ensures Invariant(Run(d, h, run))
    decreases |run|
  {
    if run != [] {
      StepInvariant(d, h, run[0].0, run[0].1);
      RunInvariant(d, Advance(d, h, run[0].0, run[0].1), run[1..]);
    }
  }

  function Fresh(): History { History(Idle(), [], 0) }

  function Idle(): State {
    State(false, false, false, "", NO_SLOT, [0, 0, 0], "", 0, [0, 0, 0], [1, 1, 1], None, None, None, None, EMPTY, None,
          false, 0, 0, 0)
  }

  // Within one session and host connection, the plans handed out are strictly increasing in
  // request and then phase, whatever repeats, conflicts, aborts and results come between.
  lemma PlansIncrease(d: Receiver, run: seq<(Event, Times)>)
    ensures Increasing(Run(d, Fresh(), run).planned)
  {
    RunInvariant(d, Fresh(), run);
  }

  // ---------------------------------------------------------------- the deadline

  lemma PlanDeadline(s: State, m: Plan, t1: nat, t2: nat)
    requires Open(s) && Open(TakePlan(s, m, t1, t2).0)
    ensures TakePlan(s, m, t1, t2).0.deadline <= s.deadline
  {
    PlanOutcome(s, m, t1, t2);
    RaiseKeeps(s, m.targets);
  }

  // While a transaction is open its deadline only comes nearer; a transaction that ends within the
  // step opens no other.
  lemma DeadlineOnlyNears(d: Receiver, s: State, e: Event, t: Times)
    requires Open(s) && Open(Step(d, s, e, t).0)
    ensures Step(d, s, e, t).0.deadline <= s.deadline
  {
    if e.PlanIn? && s.connected && !Expired(s, t.t0) && Ready(s) && !s.rejected {
      PlanDeadline(s, e.plan, t.t1, t.t2);
    } else if IsPacket(e) {
      PacketDeadline(d, s, e, t);
    }
  }

  lemma PacketDeadline(d: Receiver, s: State, e: Event, t: Times)
    requires IsPacket(e) && Open(s) && Open(Receive(d, s, e, t).0)
    requires e.PlanIn? ==> !s.connected || Expired(s, t.t0) || !Ready(s) || s.rejected
    ensures Receive(d, s, e, t).0.deadline <= s.deadline
  {
  }

  // At or after the deadline a resync packet only ends the transaction.
  lemma ExpiredEnds(d: Receiver, s: State, e: Event, t: Times)
    requires s.connected && Expired(s, t.t0) && IsResync(e)
    ensures Step(d, s, e, t) == (Abort(s), [])
  {
  }

  // A plan or snapshot handed out: the clock reading it was handed out at, and the deadline its
  // transaction had when it opened.
  datatype Handed = Handed(at: nat, first: nat)

  datatype Timed = Timed(s: State, first: nat, handed: seq<Handed>)

  function Stamped(outs: seq<Out>, t: Times, first: nat): seq<Handed> {
    if outs == [] then []
    else (match outs[0]
          case Planned(_) => [Handed(t.t2, first)]
          case Restored(_, _) => [Handed(t.t1, first)]
          case _ => []) + Stamped(outs[1..], t, first)
  }

  function AdvanceTimed(d: Receiver, h: Timed, e: Event, t: Times): Timed {
    var (r, outs) := Step(d, h.s, e, t);
    var first := if Open(h.s) then h.first else r.deadline;
    Timed(r, first, h.handed + Stamped(outs, t, first))
  }

  function RunTimed(d: Receiver, h: Timed, run: seq<(Event, Times)>): Timed
    decreases |run|
  {
    if run == [] then h else RunTimed(d, AdvanceTimed(d, h, run[0].0, run[0].1), run[1..])
  }

  predicate AllBefore(hs: seq<Handed>) { forall i :: 0 <= i < |hs| ==> hs[i].at < hs[i].first }

  predicate InTime(h: Timed) {
    Matches(h.s) && (Open(h.s) ==> h.s.deadline <= h.first) && AllBefore(h.handed)
  }

  lemma PlanInTime(s: State, m: Plan, t1: nat, t2: nat, first: nat)
    requires Matches(s) && (Open(s) ==> s.deadline <= first)
    ensures var (r, outs) := TakePlan(s, m, t1, t2);
            (Open(s) || first == r.deadline) && outs != [] ==> outs == [Planned(m)] && t2 < first
  {
    TakePlanSteps(s, m, t1, t2);
    if Open(s) && Open(TakePlan(s, m, t1, t2).0) {
      PlanDeadline(s, m, t1, t2);
    }
  }

  // What one step hands out is before the first deadline.
  lemma StepInTime(d: Receiver, s: State, e: Event, t: Times, first: nat)
    requires Matches(s) && (Open(s) ==> s.deadline <= first) && (Open(s) || first == Step(d, s, e, t).0.deadline)
    ensures AllBefore(Stamped(Step(d, s, e, t).1, t, first))
  {
    if e.PlanIn? {
      if s.connected && !Expired(s, t.t0) && Ready(s) && !s.rejected {
        PlanInTime(s, e.plan, t.t1, t.t2, first);
      }
    } else if IsPacket(e) && s.connected {
      var x := Expire(s, t.t0);
      ExpireMatches(s, t.t0);
      if e.EndIn? {
        TakeFinishSteps(d, x, e.end, t.t1);
      } else {
        OtherSteps(d, x, e, t);
      }
    }
  }

  lemma BothBefore(a: seq<Handed>, b: seq<Handed>)
    requires AllBefore(a) && AllBefore(b)
    ensures AllBefore(a + b)
  {
  }

  lemma {:induction false} RunInTime(d: Receiver, h: Timed, run: seq<(Event, Times)>)
    requires InTime(h)
    ensures InTime(RunTimed(d, h, run))
    decreases |run|
  {
    if run != [] {
      var (e, t) := run[0];
      var r := AdvanceTimed(d, h, e, t);
      StepMatches(d, h.s, e, t);
      StepInTime(d, h.s, e, t, r.first);
      BothBefore(h.handed, Stamped(Step(d, h.s, e, t).1, t, r.first));
      if Open(h.s) && Open(r.s) {
        DeadlineOnlyNears(d, h.s, e, t);
      }
      RunInTime(d, r, run[1..]);
    }
  }

  // Over every run, no plan or snapshot is handed out at or after the deadline its transaction
  // opened with, however the clock is read.
  lemma NothingAfterDeadline(d: Receiver, run: seq<(Event, Times)>)
    ensures var h := RunTimed(d, Timed(Idle(), 0, []), run);
            AllBefore(h.handed)
  {
    RunInTime(d, Timed(Idle(), 0, []), run);
  }

  // ---------------------------------------------------------------- the quarantine

  predicate Restores(outs: seq<Out>) { exists i :: 0 <= i < |outs| && outs[i].Restored? }

  // The world packets handed out that are not ephemeral.
  function Lasting(outs: seq<Out>): seq<Out> {
    if outs == [] then []
    else (if outs[0].Passed? || (outs[0].World? && !outs[0].inner.ephemeral) then [outs[0]] else []) + Lasting(outs[1..])
  }

  lemma {:induction false} LastingConcat(a: seq<Out>, b: seq<Out>)
    ensures Lasting(a + b) == Lasting(a) + Lasting(b)
    decreases |a|
  {
    if a == [] {
      assert a + b == b;
    } else {
      assert (a + b)[1..] == a[1..] + b;
      LastingConcat(a[1..], b);
    }
  }

  // A request frame gets through whenever the client is ready.
  predicate RequestPasses(s: State, e: Event) { e.RequestIn? && Ready(s) && !s.rejected }

  function PassedBy(s: State, e: Event): seq<Out> { if RequestPasses(s, e) then [Passed(e.frame)] else [] }

  lemma DispatchQuarantine(d: Receiver, s: State, e: Event, t: Times)
    requires s.quarantined
    ensures var (r, outs) := Dispatch(d, s, e, t);
            Restores(outs) || (r.quarantined && Lasting(outs) == if e.RequestIn? then [Passed(e.frame)] else [])
  {
    var (r, outs) := Dispatch(d, s, e, t);
    if e.PlanIn? {
      PlanOutcome(s, e.plan, t.t1, t.t2);
      RaiseKeeps(s, e.plan.targets);
    } else if e.EndIn? && outs != [] {
      assert outs[0].Restored?;
    }
  }

  // While quarantined, and until a snapshot is restored or the session is replaced, the quarantine
  // stays, and what gets through beside ephemeral packets is exactly the request frames.
  lemma QuarantineStep(d: Receiver, s: State, e: Event, t: Times)
    requires s.quarantined && !Replaces(s, e, t) && !Restores(Step(d, s, e, t).1)
    ensures Step(d, s, e, t).0.quarantined && Lasting(Step(d, s, e, t).1) == PassedBy(s, e)
  {
    if !IsPacket(e) {
      SilentSteps(d, s, e, t);
    } else if s.connected {
      var x := Expire(s, t.t0);
      if !(Expired(s, t.t0) && IsResync(e)) && Ready(x) && !x.rejected {
        DispatchQuarantine(d, x, e, t);
      }
    }
  }

  predicate Unreleased(d: Receiver, s: State, run: seq<(Event, Times)>)
    decreases |run|
  {
    run != [] ==>
    && !Replaces(s, run[0].0, run[0].1) && !Restores(Step(d, s, run[0].0, run[0].1).1)
    && Unreleased(d, Step(d, s, run[0].0, run[0].1).0, run[1..])
  }

  function After(d: Receiver, s: State, run: seq<(Event, Times)>): State
    decreases |run|
  {
    if run == [] then s else After(d, Step(d, s, run[0].0, run[0].1).0, run[1..])
  }

  // The request frames of a run that arrive while the client is ready.
  function RequestsPassed(d: Receiver, s: State, run: seq<(Event, Times)>): seq<Out>
    decreases |run|
  {
    if run == [] then []
    else PassedBy(s, run[0].0) + RequestsPassed(d, Step(d, s, run[0].0, run[0].1).0, run[1..])
  }

  lemma {:induction false} QuarantineHolds(d: Receiver, s: State, run: seq<(Event, Times)>)
    requires s.quarantined && Unreleased(d, s, run)
    ensures After(d, s, run).quarantined && Lasting(Outs(d, s, run)) == RequestsPassed(d, s, run)
    decreases |run|
  {
    if run != [] {
      var (r, outs) := Step(d, s, run[0].0, run[0].1);
      QuarantineStep(d, s, run[0].0, run[0].1);
      QuarantineHolds(d, r, run[1..]);
      LastingConcat(outs, Outs(d, r, run[1..]));
    }
  }

  // What a restored snapshot was: complete, of the open plan's own phase, before its deadline.
  lemma RestoredUnderPlan(d: Receiver, s: State, e: Event, t: Times, begin: Begin, snapshot: Snapshot)
    requires Matches(s) && Step(d, s, e, t).1 == [Restored(begin, snapshot)]
    ensures s.plan.Some? && begin.key == s.plan.value.request.key && begin.phase == s.plan.value.phase
    ensures begin.targets == s.plan.value.targets && begin.room == s.plan.value.request.room == snapshot.room
    ensures t.t0 < s.deadline && t.t1 < s.deadline
    ensures s.assembler.begin == Some(begin) && |s.assembler.bytes| == begin.total && d.sha(s.assembler.bytes) == begin.sha
    ensures d.decode(s.assembler.bytes) == Some(snapshot)
    ensures Step(d, s, e, t).0.floor == begin.cut && !Step(d, s, e, t).0.quarantined
  {
  }

  // A world packet is handed out only by an admitted envelope.
  lemma WorldIsAdmitted(d: Receiver, s: State, e: Event, t: Times, c: Scope, p: Inner)
    requires Step(d, s, e, t).1 == [World(c, p)]
    ensures e == Envelope(c, p) && s.connected && Admits(Expire(s, t.t0), c, p)
  {
  }

  // After a snapshot, only what the host sent past its cut is let through.
  lemma FloorIsLatestCut(d: Receiver, run: seq<(Event, Times)>, e: Event, t: Times, c: Scope, p: Inner)
    requires var h := Run(d, Fresh(), run);
             Step(d, h.s, e, t).1 == [World(c, p)] && FromHost(h.s, c, p)
    ensures c.hostSerial > Run(d, Fresh(), run).cut
  {
    RunInvariant(d, Fresh(), run);
    WorldIsAdmitted(d, Run(d, Fresh(), run).s, e, t, c, p);
  }

  // The deadline is read once more between admitting an envelope and handing its packet out. A
  // packet that is not ephemeral is handed out into a quarantine exactly when that second reading
  // ends a friend's plan.
  lemma LateAbortWindow(d: Receiver, s: State, e: Event, t: Times, c: Scope, p: Inner)
    requires Step(d, s, e, t).1 == [World(c, p)] && !p.ephemeral
    ensures !s.quarantined
    ensures Step(d, s, e, t).0.quarantined <==> s.plan.Some? && s.slot != 0 && t.t1 >= s.deadline
  {
    WorldIsAdmitted(d, s, e, t, c, p);
  }

  // An admitted packet whose friend's plan ends between the two readings.
  predicate LateAbort(s: State, e: Event, t: Times) {
    && e.Envelope? && !s.rejected && Admits(s, e.scope, e.inner) && !e.inner.ephemeral && e.inner.passes
    && s.plan.Some? && s.slot != 0 && t.t0 < s.deadline <= t.t1
  }

  // A friend's plan ends at this event, or it is quarantined already.
  predicate QuarantinedAt(s: State, t: nat) { s.quarantined || (Expired(s, t) && s.plan.Some? && s.slot != 0) }

  lemma EnvelopeHands(d: Receiver, s: State, e: Event, t: Times)
    requires e.Envelope?
    ensures var (r, outs) := Step(d, s, e, t);
            r.quarantined && Lasting(outs) != [] <==> LateAbort(s, e, t)
  {
    if s.connected {
      var x := Expire(s, t.t0);
      if Ready(x) && !x.rejected && Admits(x, e.scope, e.inner) {
        var y := Expire(x, t.t1);
        assert y.quarantined <==> x.quarantined || QuarantinedAt(x, t.t1);
      }
    }
  }

  lemma OtherHands(d: Receiver, s: State, e: Event, t: Times)
    requires !e.Envelope? && !e.RequestIn?
    ensures Lasting(Step(d, s, e, t).1) == []
  {
  }

  // A world packet that is not ephemeral reaches the application in quarantine exactly when it is a
  // request frame, or is admitted just before a friend's plan ends.
  lemma QuarantineIff(d: Receiver, s: State, e: Event, t: Times)
    ensures var (r, outs) := Step(d, s, e, t);
            r.quarantined && Lasting(outs) != [] <==>
            (RequestPasses(s, e) && QuarantinedAt(s, t.t0)) || LateAbort(s, e, t)
  {
    if e.Envelope? {
      EnvelopeHands(d, s, e, t);
    } else if !e.RequestIn? {
      OtherHands(d, s, e, t);
    }
  }
}
