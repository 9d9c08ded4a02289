// What every run of the barrier guarantees: decisions, admissions, the deadline, and whose bits of
// the frozen mask it touches.
module AdmissionSafety {
  import opened Common
  import opened Admission
  import opened AdmissionRuns

  // ---------------------------------------------------------------- decisions

  // Every lease but a held one has been decided exactly once, on the terms it was opened with.
  lemma DecidedOnce(enabled: bool, mask: set<nat>, es: seq<Event>)
    ensures var g := Run(Begin(enabled, mask), es);
            && |g.openings| == g.b.incarnations
            && |g.verdicts| == (if g.b.lease.phase == Held then |g.openings| - 1 else |g.openings|)
            && forall i :: 0 <= i < |g.verdicts| ==>
                 && g.openings[i].lease.incarnation == g.verdicts[i].lease.incarnation == i + 1
                 && SameTerms(g.openings[i].lease, g.verdicts[i].lease) && g.verdicts[i].outcome != Undecided
  {
    BeginInvariant(enabled, mask);
    RunInvariant(Begin(enabled, mask), es);
  }

  // The acknowledgement, for lease number i, of the seat's own connection at deferral.
  predicate Acknowledged(g: Game, i: nat, slot: nat, k: nat)
    requires i < |g.openings| && i < |g.verdicts| && 1 <= slot <= 2
  {
    && k < |g.accepted|
    && var a := g.accepted[k];
    && a.incarnation == i + 1 && a.message.slot == slot && a.message.room == TARGET
    && a.message.connection == PeerOf(g.openings[i].session, slot).connection
    && a.message.challenge == g.openings[i].lease.challenge
    && a.message.epoch == g.verdicts[i].lease.epoch && a.message.epoch != 0
    && (PeerOf(g.openings[i].session, slot).delivery != 0 ==>
          a.message.delivery == PeerOf(g.openings[i].session, slot).delivery)
  }

  // At the decision on lease number i the seat is still held by the connection and delivery it had
  // at deferral.
  predicate StillSeated(g: Game, i: nat, slot: nat)
    requires i < |g.openings| && i < |g.verdicts| && 1 <= slot <= 2
  {
    && g.verdicts[i].seen.Some?
    && var was, now := PeerOf(g.openings[i].session, slot), PeerOf(g.verdicts[i].seen.value, slot);
    && now.connection == was.connection && (was.delivery != 0 ==> now.delivery == was.delivery)
  }

  // An admission means that every seat connected when the call was deferred has acknowledged, with
  // that lease's challenge and published epoch, and is still seated when it is decided.
  lemma AdmissionIsSound(enabled: bool, mask: set<nat>, es: seq<Event>, i: nat, slot: nat)
    requires var g := Run(Begin(enabled, mask), es);
             && 1 <= slot <= 2 && i < |g.verdicts| <= |g.openings| && g.verdicts[i].outcome == Arrived
             && PeerOf(g.openings[i].session, slot).connection != 0
    ensures exists k :: Acknowledged(Run(Begin(enabled, mask), es), i, slot, k)
    ensures StillSeated(Run(Begin(enabled, mask), es), i, slot)
  {
    var g := Run(Begin(enabled, mask), es);
    BeginInvariant(enabled, mask);
    RunInvariant(Begin(enabled, mask), es);
    var l := g.verdicts[i].lease;
    assert Opened(g.openings[i]) && Sound(g.accepted, g.verdicts[i]) && SameTerms(g.openings[i].lease, l);
    assert SeatOf(l, slot).required && SeatOf(l, slot).acked;
    var k :| 0 <= k < |g.accepted| && Backs(g.accepted[k], l, slot);
    assert Acknowledged(g, i, slot, k);
  }

  // The step that admits sees every required seat held by its own connection and delivery.
  lemma AdmittedWhileSeated(g: Game, v: View, s: Session, now: u64, shutdown: bool, slot: nat)
    requires g.b.lease.phase == Held && 1 <= slot <= 2 && SeatOf(g.b.lease, slot).required
    requires var h := ServiceOwner(g, v, s, now, shutdown); h.b.lease.phase != Held && h.b.lease.outcome == Arrived
    ensures PeerOf(s, slot).connection == SeatOf(g.b.lease, slot).connection
    ensures SeatOf(g.b.lease, slot).delivery != 0 ==> PeerOf(s, slot).delivery == SeatOf(g.b.lease, slot).delivery
  {
    if !shutdown {
      EvaluateArrived(g.b.lease, v, s, now);
    }
  }

  // The first service at or after the deadline ends the hold, whatever it can read.
  lemma DeadlineEndsHold(g: Game, v: View, s: Session, now: u64, shutdown: bool)
    requires g.b.lease.phase == Held && g.b.lease.deferredMs + DEADLINE_MS <= now
    ensures var h := ServiceOwner(g, v, s, now, shutdown); h.b.lease.phase != Held && |h.verdicts| == |g.verdicts| + 1
  {
  }

  // ---------------------------------------------------------------- the frozen mask

  // One service: nothing, or a single replay that leaves none of the lease's groups frozen.
  predicate Touches(g: Game, h: Game) {
    if h.replays == g.replays then h.mask == g.mask
    else
      && |h.replays| == |g.replays| + 1 && h.replays[..|g.replays|] == g.replays
      && var r := h.replays[|g.replays|];
      && r.incarnation == g.b.lease.incarnation && r.leaseLoad == g.b.lease.load && r.held == HeldGroups(g.b.lease)
      && r.groups == g.mask * r.held && h.mask == g.mask - r.groups
      && h.b.lease.phase == Done && !h.b.lease.retired && h.mask * HeldGroups(h.b.lease) == {}
  }

  lemma ServiceTouches(g: Game, v: View, s: Session, now: u64, shutdown: bool)
    requires LeaseShape(g.b.lease) && Sampled(g.mask, v)
    ensures Touches(g, ServiceOwner(g, v, s, now, shutdown))
    ensures var h := ServiceOwner(g, v, s, now, shutdown);
            HeldGroups(h.b.lease) == HeldGroups(g.b.lease) && h.b.lease.incarnation == g.b.lease.incarnation
  {
    if Live(g.b) {
      var d := if shutdown then Settle(g, RequestShutdown(g.b), None) else g;
      var l := Decided(d.b.lease, v, s, now);
      assert l.released == {} && HeldGroups(l) == HeldGroups(g.b.lease);
      var groups := v.mask * HeldGroups(l) - l.released;
      assert groups == v.mask * HeldGroups(l);
      ServiceTwoSteps(d, v, s, now);
    }
  }

  // A deferral freezes only what it now owns, all of it clear before; a call that is not deferred
  // is the game's own clear.
  predicate Defers(g: Game, h: Game, group: nat) {
    if h.b == g.b then h.mask == g.mask - {group}
    else
      && h.replays == g.replays && g.mask <= h.mask
      && (if h.b.lease.incarnation == g.b.lease.incarnation then h.mask == g.mask && h.b.lease.owned == g.b.lease.owned
          else h.b.lease.owned == OWNABLE - g.mask && h.mask == g.mask + h.b.lease.owned)
  }

  lemma CallDefers(g: Game, group: nat, caller: nat, v: View, s: Session, now: u64, challenge: u64)
    requires LeaseShape(g.b.lease) && g.b.lease.incarnation == g.b.incarnations && Sampled(g.mask, v)
    ensures Defers(g, OnCall(g, group, caller, v, s, now, challenge), group)
  {
  }

  // What one event may do to the game's mask. Only the game's own calls clear other bits.
  predicate Owns(g: Game, e: Event, h: Game) {
    match e
    case Freeze(group) => h.mask == g.mask + {group}
    case Clears(groups) => h.mask == g.mask - groups
    case Call(_, group, _, _, _, _, _) => Defers(g, h, group)
    case Load(_, _, _) => h.mask == g.mask && h.replays == g.replays
    case Publish(_, _, _) => h.mask == g.mask && h.replays == g.replays
    case _ => Touches(g, h)
  }

  lemma RequestTouches(g: Game, from: Place, to: Place, next: u32, v: View, s: Session, now: u64, shutdown: bool)
    requires Invariant(g) && Sampled(g.mask, v)
    ensures Touches(g, OnRequest(g, from, to, next, v, s, now, shutdown))
  {
    if g.b.lease.phase == Held {
      DecideInvariant(g, Transition, None);
      ServiceTouches(Settle(g, BeforeTransition(g.b), None), v, s, now, shutdown);
    }
  }

  lemma AckTouches(g: Game, a: AckMessage, v: View, s: Session, now: u64, shutdown: bool)
    requires Invariant(g) && Sampled(g.mask, v) && Accepts(g.b.lease, a)
    ensures Touches(g, ServiceOwner(OnAck(g, a), v, s, now, shutdown))
  {
    AckInvariant(g, a);
    ServiceTouches(OnAck(g, a), v, s, now, shutdown);
  }

  lemma StepOwns(g: Game, e: Event)
    requires Invariant(g) && Samples(g, e)
    ensures Owns(g, e, Step(g, e))
  {
    match e
    case Call(owner, group, caller, v, s, now, challenge) =>
      CallDefers(g, group, caller, v, s, now, challenge);
    case Request(owner, from, to, next, v, s, now, shutdown) =>
      RequestTouches(g, from, to, next, v, s, now, shutdown);
    case Serve(owner, v, s, now, shutdown) =>
      ServiceTouches(g, v, s, now, shutdown);
    case AckIn(owner, a, v, s, now, shutdown) =>
      if Accepts(g.b.lease, a) {
        AckTouches(g, a, v, s, now, shutdown);
      }
    case _ =>
  }

  // A lease that retires clears nothing.
  lemma RetirementClearsNothing(g: Game, e: Event)
    requires Invariant(g) && Samples(g, e) && !g.b.lease.retired && Step(g, e).b.lease.retired
    ensures Step(g, e).mask == g.mask && Step(g, e).replays == g.replays
  {
    StepOwns(g, e);
  }

  // Over any run, the barrier's own clears are one replay per lease at most, of groups that lease
  // had deferred or frozen itself, while the game was still in the lease's load.
  lemma ReplaysStayInLease(enabled: bool, mask: set<nat>, es: seq<Event>)
    ensures Replayed(Run(Begin(enabled, mask), es))
  {
    BeginInvariant(enabled, mask);
    RunInvariant(Begin(enabled, mask), es);
  }
}
