// When a quarantine must begin: a friend is fenced off by every plan it is handed and by every
// transaction that ends without converging, until a snapshot is restored.
module ResyncFence {
  import opened Common
  import opened Transfer
  import opened ResyncClient
  import opened ResyncSafety

  // A converged result of the open plan arrives in time.
  predicate Converges(s: State, e: Event, t: Times) {
    && e.ResultIn? && e.converged && s.plan.Some? && e.key == s.plan.value.request.key
    && s.connected && Ready(s) && !s.rejected && t.t0 < s.deadline
  }

  predicate PlanEnds(d: Receiver, s: State, e: Event, t: Times) {
    s.plan.Some? && Step(d, s, e, t).0.plan.None?
  }

  predicate Plans(outs: seq<Out>) { exists i :: 0 <= i < |outs| && outs[i].Planned? }

  lemma DispatchEnds(d: Receiver, s: State, e: Event, t: Times)
    requires s.slot != 0 && s.plan.Some? && s.connected && Ready(s) && !s.rejected && t.t0 < s.deadline
    requires Dispatch(d, s, e, t).0.plan.None?
    ensures Dispatch(d, s, e, t).0.quarantined == (s.quarantined || !Converges(s, e, t))
  {
    match e
    case PlanIn(m) =>
      PlanOutcome(s, m, t.t1, t.t2);
      RaiseKeeps(s, m.targets);
    case BeginIn(b) => HeaderQuiet(s, b);
    case PartIn(p) => PieceQuiet(s, p);
    case _ =>
  }

  lemma SilentEnds(d: Receiver, s: State, e: Event, t: Times)
    requires s.slot != 0 && !IsPacket(e) && !Replaces(s, e, t) && PlanEnds(d, s, e, t)
    ensures Step(d, s, e, t).0.quarantined
  {
    match e
    case Roster(valid, session, connections, slot, _) =>
      assert !Replaces(s, e, t);
    case _ =>
  }

  // A friend's plan never ends silently: unless the session or transport is replaced, the client is
  // quarantined afterwards, or the plan converged and the flag is as before.
  lemma EndedPlanFences(d: Receiver, s: State, e: Event, t: Times)
    requires s.slot != 0 && !Replaces(s, e, t) && PlanEnds(d, s, e, t)
    ensures Step(d, s, e, t).0.quarantined == (s.quarantined || !Converges(s, e, t))
  {
    if !IsPacket(e) {
      SilentEnds(d, s, e, t);
    } else if s.connected && !Expired(s, t.t0) {
      DispatchEnds(d, s, e, t);
    }
  }

  lemma PlannedFences(d: Receiver, s: State, e: Event, t: Times)
    requires s.slot != 0 && Plans(Step(d, s, e, t).1)
    ensures Step(d, s, e, t).0.quarantined && Step(d, s, e, t).0.plan.Some?
  {
    assert e.PlanIn?;
    var x := Expire(s, t.t0);
    PlanOutcome(x, e.plan, t.t1, t.t2);
  }

  // ---------------------------------------------------------------- every way it can begin

  // A newer delivery of the client's own connection is bound, past the first.
  predicate Rebinds(s: State, e: Event) {
    && e.Bind? && s.connected && s.rosterValid && !s.rejected
    && e.bound.session == s.session && e.bound.host == At(s.connections, 0)
    && e.bound.slot == s.slot && e.bound.self == At(s.connections, s.slot)
    && e.bound.delivery > 1 && (s.binding.Some? ==> e.bound.delivery > s.binding.value.delivery)
  }

  // The first plan of a request comes when its own time is already over.
  predicate PlannedTooLate(s: State, e: Event, t: Times) {
    && e.PlanIn? && s.plan.None? && s.connected && !s.rejected && !Expired(s, t.t0) && Admitted(s, e.plan)
    && t.t2 >= AdmitPlan(s, e.plan, t.t1).deadline
  }

  predicate Fences(d: Receiver, s: State, e: Event, t: Times) {
    s.slot != 0 && ((PlanEnds(d, s, e, t) && !Converges(s, e, t)) || Plans(Step(d, s, e, t).1))
  }

  predicate Begins(d: Receiver, s: State, e: Event, t: Times) {
    || Fences(d, s, e, t)
    || (s.slot != 0 && PlannedTooLate(s, e, t))
    || Rebinds(s, e)
    || (e.AckFailed? && s.plan.Some? && HasBinding(s) && s.slot != 0)
  }

  lemma PlanBegins(d: Receiver, s: State, m: Plan, t: Times)
    requires !s.quarantined && s.connected && Ready(s) && !s.rejected && !Expired(s, t.t0)
    ensures Step(d, s, PlanIn(m), t).0.quarantined <==> Begins(d, s, PlanIn(m), t)
  {
    var (r, outs) := Step(d, s, PlanIn(m), t);
    PlanOutcome(s, m, t.t1, t.t2);
    RaiseKeeps(s, m.targets);
    if outs != [] {
      assert outs[0].Planned?;
    }
  }

  lemma OtherPacketBegins(d: Receiver, s: State, e: Event, t: Times)
    requires !s.quarantined && IsPacket(e) && !e.PlanIn? && s.connected && Ready(s) && !s.rejected && !Expired(s, t.t0)
    ensures Step(d, s, e, t).0.quarantined <==> Begins(d, s, e, t)
  {
    match e
    case BeginIn(b) => HeaderQuiet(s, b);
    case PartIn(p) => PieceQuiet(s, p);
    case _ =>
  }

  lemma ExpiredBegins(d: Receiver, s: State, e: Event, t: Times)
    requires !s.quarantined && IsPacket(e) && s.connected && Expired(s, t.t0)
    ensures Step(d, s, e, t).0.quarantined <==> Begins(d, s, e, t)
    {
    var x := Abort(s);
    if IsResync(e) {
      assert Step(d, s, e, t) == (x, []);
    } else if Ready(x) && !x.rejected {
      OpenlessDispatch(d, x, e, t);
    }
  }

  // Without a plan, what is not a resync packet quarantines only by a new binding.
  lemma OpenlessDispatch(d: Receiver, x: State, e: Event, t: Times)
    requires x.plan.None? && !IsResync(e)
    ensures var (r, outs) := Dispatch(d, x, e, t);
            && r.plan.None? && !Plans(outs)
            && (r.quarantined <==> x.quarantined || (e.Bind? && TakeBinding(x, e.bound).quarantined))
  {
  }

  lemma RosterBegins(d: Receiver, s: State, e: Event, t: Times)
    requires !s.quarantined && e.Roster? && !Replaces(s, e, t)
    ensures Step(d, s, e, t).0.quarantined <==> Begins(d, s, e, t)
  {
    if s.connected {
      var x := Expire(s, t.t0);
      var r := Step(d, s, e, t).0;
      assert r.quarantined == x.quarantined && r.plan == x.plan;
    }
  }

  lemma TickBegins(d: Receiver, s: State, t: Times)
    requires !s.quarantined
    ensures Step(d, s, Tick, t).0.quarantined <==> Begins(d, s, Tick, t)
    {
    var x := Expire(s, t.t0);
    var r := Expire(x, t.t1);
    assert Step(d, s, Tick, t) == (r, []);
    assert r.quarantined <==> s.slot != 0 && s.plan.Some? && r.plan.None?;
  }

  lemma SilentBegins(d: Receiver, s: State, e: Event, t: Times)
    requires !s.quarantined && !IsPacket(e) && !Replaces(s, e, t)
    ensures Step(d, s, e, t).0.quarantined <==> Begins(d, s, e, t)
    {
    if e.Roster? {
      RosterBegins(d, s, e, t);
    } else if e.Tick? {
      TickBegins(d, s, t);
    }
  }

  // From outside quarantine, and unless the session or transport is replaced, a step ends in it
  // exactly when it fences a friend, takes up a plan too late, binds a later delivery, or cannot
  // acknowledge.
  lemma BeginsIff(d: Receiver, s: State, e: Event, t: Times)
    requires !s.quarantined && !Replaces(s, e, t)
    ensures Step(d, s, e, t).0.quarantined <==> Begins(d, s, e, t)
  {
    if !IsPacket(e) {
      SilentBegins(d, s, e, t);
    } else if s.connected {
      if Expired(s, t.t0) {
        ExpiredBegins(d, s, e, t);
      } else if Ready(s) && !s.rejected {
        if e.PlanIn? {
          PlanBegins(d, s, e.plan, t);
        } else {
          OtherPacketBegins(d, s, e, t);
        }
      }
    }
  }

  // ---------------------------------------------------------------- over runs

  // Whether a friend is fenced off after a run: by the last plan handed to it or ended without
  // converging, unless a snapshot was restored or the session replaced since.
  function Fenced(d: Receiver, s: State, fenced: bool, run: seq<(Event, Times)>): bool
    decreases |run|
  {
    if run == [] then fenced
    else
      var (e, t) := run[0];
      var (r, outs) := Step(d, s, e, t);
      Fenced(d, r, !Replaces(s, e, t) && !Restores(outs) && (fenced || Fences(d, s, e, t)), run[1..])
  }

  lemma FenceStep(d: Receiver, s: State, e: Event, t: Times)
    requires !Replaces(s, e, t) && !Restores(Step(d, s, e, t).1) && (s.quarantined || Fences(d, s, e, t))
    ensures Step(d, s, e, t).0.quarantined
  {
    if s.quarantined {
      QuarantineStep(d, s, e, t);
    } else {
      BeginsIff(d, s, e, t);
    }
  }

  lemma {:induction false} FencedRun(d: Receiver, s: State, fenced: bool, run: seq<(Event, Times)>)
    requires fenced ==> s.quarantined
    ensures Fenced(d, s, fenced, run) ==> After(d, s, run).quarantined
    decreases |run|
  {
    if run != [] {
      var (e, t) := run[0];
      var (r, outs) := Step(d, s, e, t);
      var next := !Replaces(s, e, t) && !Restores(outs) && (fenced || Fences(d, s, e, t));
      if next {
        FenceStep(d, s, e, t);
      }
      FencedRun(d, r, next, run[1..]);
    }
  }

  // Over every run from a fresh client: a friend that was handed a plan, or whose transaction
  // ended without converging, is in quarantine until a snapshot is restored.
  lemma FencedIsQuarantined(d: Receiver, run: seq<(Event, Times)>)
    ensures Fenced(d, Idle(), false, run) ==> After(d, Idle(), run).quarantined
  {
    FencedRun(d, Idle(), false, run);
  }

  // From such a step on, until a snapshot is restored or the session replaced, nothing is handed
  // out beside ephemeral packets but the request frames.
  lemma FencedUntilSnapshot(d: Receiver, before: seq<(Event, Times)>, e: Event, t: Times, after: seq<(Event, Times)>)
    requires var s := After(d, Idle(), before);
             && Fences(d, s, e, t) && !Replaces(s, e, t) && !Restores(Step(d, s, e, t).1)
             && Unreleased(d, Step(d, s, e, t).0, after)
    ensures var r := Step(d, After(d, Idle(), before), e, t).0;
            After(d, r, after).quarantined && Lasting(Outs(d, r, after)) == RequestsPassed(d, r, after)
  {
    var s := After(d, Idle(), before);
    FenceStep(d, s, e, t);
    QuarantineHolds(d, Step(d, s, e, t).0, after);
  }
}
