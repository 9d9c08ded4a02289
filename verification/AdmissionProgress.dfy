// What the barrier does decide: over every run, exactly which outcome a service gives a held lease,
// told from the session the lease was opened under and the acknowledgements accepted since.
module AdmissionProgress {
  import opened Common
  import opened Admission
  import opened AdmissionRuns
  import opened AdmissionSafety

  // ---------------------------------------------------------------- what the lease remembers

  // The lease was opened for the session it was opened under.
  predicate OpenedFor(o: Opening) {
    && o.session.host && o.session.generation != 0
    && o.lease.generation == o.session.generation && o.lease.hostDelivery == o.session.hostDelivery
    && (o.session.one.connection != 0 || o.session.two.connection != 0)
  }

  // Every acknowledgement is of a lease opened so far, and those of the newest lease are marked.
  predicate Marked(g: Game) {
    && (forall i :: 0 <= i < |g.openings| ==> OpenedFor(g.openings[i]))
    && forall k :: 0 <= k < |g.accepted| ==>
         var a := g.accepted[k];
         && 0 < a.incarnation <= g.b.incarnations && 1 <= a.message.slot <= 2
         && (a.incarnation == g.b.lease.incarnation ==> SeatOf(g.b.lease, a.message.slot).acked)
  }

  // The lease goes on with its seats as they were.
  predicate SeatsKept(g: Game, h: Game) {
    && h.accepted == g.accepted && h.openings == g.openings && h.b.incarnations == g.b.incarnations
    && h.b.lease.incarnation == g.b.lease.incarnation && h.b.lease.one == g.b.lease.one && h.b.lease.two == g.b.lease.two
  }

  lemma KeptMarked(g: Game, h: Game)
    requires Marked(g) && SeatsKept(g, h)
    ensures Marked(h)
  {
  }

  lemma ServiceKeepsSeats(g: Game, v: View, s: Session, now: u64, shutdown: bool)
    ensures SeatsKept(g, ServiceOwner(g, v, s, now, shutdown))
  {
  }

  lemma RequestKeepsSeats(g: Game, from: Place, to: Place, next: u32, v: View, s: Session, now: u64, shutdown: bool)
    ensures SeatsKept(g, OnRequest(g, from, to, next, v, s, now, shutdown))
  {
    ServiceKeepsSeats(Settle(g, BeforeTransition(g.b), None), v, s, now, shutdown);
  }

  lemma CallMarked(g: Game, group: nat, caller: nat, v: View, s: Session, now: u64, challenge: u64)
    requires Invariant(g) && Marked(g)
    ensures Marked(OnCall(g, group, caller, v, s, now, challenge))
  {
    var h := OnCall(g, group, caller, v, s, now, challenge);
    if h.b.incarnations == g.b.incarnations {
      KeptMarked(g, h);
    } else {
      assert h.accepted == g.accepted && h.b.lease.incarnation == g.b.incarnations + 1;
      assert h.openings == g.openings + [h.openings[|g.openings|]] && OpenedFor(h.openings[|g.openings|]);
    }
  }

  lemma AckMarked(g: Game, a: AckMessage)
    requires Invariant(g) && Marked(g) && Accepts(g.b.lease, a)
    ensures Marked(OnAck(g, a))
  {
    assert a.slot == 1 || a.slot == 2;
    var h := OnAck(g, a);
    forall k | 0 <= k < |h.accepted| && h.accepted[k].incarnation == h.b.lease.incarnation
      ensures SeatOf(h.b.lease, h.accepted[k].message.slot).acked
    {
      if k < |g.accepted| {
        assert h.accepted[k] == g.accepted[k];
      }
    }
  }

  lemma StepMarked(g: Game, e: Event)
    requires Invariant(g) && Marked(g)
    ensures Marked(Step(g, e))
  {
    match e
    case Call(owner, group, caller, v, s, now, challenge) =>
      if owner {
        CallMarked(g, group, caller, v, s, now, challenge);
      }
    case Request(owner, from, to, next, v, s, now, shutdown) =>
      RequestKeepsSeats(g, from, to, next, v, s, now, shutdown);
      KeptMarked(g, Step(g, e));
    case Serve(owner, v, s, now, shutdown) =>
      ServiceKeepsSeats(g, v, s, now, shutdown);
      KeptMarked(g, Step(g, e));
    case AckIn(owner, a, v, s, now, shutdown) =>
      if owner && Accepts(g.b.lease, a) {
        AckMarked(g, a);
        ServiceKeepsSeats(OnAck(g, a), v, s, now, shutdown);
        KeptMarked(OnAck(g, a), Step(g, e));
      }
    case _ => KeptMarked(g, Step(g, e));
  }

  lemma {:induction false} RunMarked(g: Game, es: seq<Event>)
    requires Invariant(g) && Marked(g)
    ensures Marked(Run(g, es))
    decreases |es|
  {
    if es != [] {
      StepInvariant(g, es[0]);
      StepMarked(g, es[0]);
      RunMarked(Step(g, es[0]), es[1..]);
    }
  }

  // ---------------------------------------------------------------- the session and the seats

  // The newest lease, as it was opened.
  function Newest(g: Game): Opening
    requires g.openings != []
  {
    g.openings[|g.openings| - 1]
  }

  predicate Expected(g: Game, slot: nat)
    requires g.openings != [] && 1 <= slot <= 2
  {
    PeerOf(Newest(g).session, slot).connection != 0
  }

  // The newest lease has this seat's acknowledgement.
  predicate HasAck(g: Game, slot: nat) {
    exists k :: 0 <= k < |g.accepted| && g.accepted[k].incarnation == |g.openings| && g.accepted[k].message.slot == slot
  }

  predicate AllAcknowledged(g: Game)
    requires g.openings != []
  {
    g.b.lease.epoch != 0 && forall slot :: 1 <= slot <= 2 && Expected(g, slot) ==> HasAck(g, slot)
  }

  // The seat is held by the connection, and the delivery if it had one, of the lease's opening.
  predicate Remains(g: Game, s: Session, slot: nat)
    requires g.openings != [] && 1 <= slot <= 2
  {
    var was, now := PeerOf(Newest(g).session, slot), PeerOf(s, slot);
    now.connection == was.connection && (was.delivery != 0 ==> now.delivery == was.delivery)
  }

  predicate AllRemain(g: Game, s: Session)
    requires g.openings != []
  {
    forall slot :: 1 <= slot <= 2 && Expected(g, slot) ==> Remains(g, s, slot)
  }

  // The game is still in the lease's load and transition, and has not cleared its groups itself.
  predicate SameScene(g: Game, v: View)
    requires g.openings != []
  {
    v.readable ==>
    && v.load == Newest(g).lease.load && v.transition == Newest(g).lease.transition
    && (v.eventContext == 0 ==> v.mask * g.b.lease.deferred != {})
  }

  predicate SameSession(g: Game, s: Session)
    requires g.openings != []
  {
    s.host && s.generation == Newest(g).session.generation && s.hostDelivery == Newest(g).session.hostDelivery
  }

  predicate NobodyDowned(g: Game, s: Session) {
    && !s.hostDowned
    && (g.b.lease.epoch != 0 ==>
          s.own.downedEpoch != g.b.lease.epoch && s.one.downedEpoch != g.b.lease.epoch && s.two.downedEpoch != g.b.lease.epoch)
  }

  // ---------------------------------------------------------------- the exact outcome

  // What held leases and the run so far say of each other.
  predicate Remembers(g: Game) {
    && g.openings != [] && OpenedFor(Newest(g)) && Opened(Newest(g)) && SameTerms(Newest(g).lease, g.b.lease)
    && forall slot :: 1 <= slot <= 2 ==>
         && (SeatOf(g.b.lease, slot).required <==> Expected(g, slot))
         && (Expected(g, slot) ==> (SeatOf(g.b.lease, slot).acked <==> HasAck(g, slot)))
  }

  lemma HeldRemembers(g: Game)
    requires Invariant(g) && Marked(g) && g.b.lease.phase == Held
    ensures Remembers(g)
  {
    assert g.openings != [];
    forall slot | 1 <= slot <= 2 && Expected(g, slot)
      ensures SeatOf(g.b.lease, slot).acked <==> HasAck(g, slot)
    {
      if SeatOf(g.b.lease, slot).acked {
        var k :| 0 <= k < |g.accepted| && Backs(g.accepted[k], g.b.lease, slot);
        assert g.accepted[k].incarnation == |g.openings| && g.accepted[k].message.slot == slot;
      }
    }
  }

  // The fault of one seat, told from the opening.
  lemma FaultIff(g: Game, s: Session, slot: nat)
    requires Remembers(g) && 1 <= slot <= 2
    ensures var fault := SeatFault(SeatOf(g.b.lease, slot), PeerOf(s, slot));
            && (fault == Undecided <==> Expected(g, slot) ==> Remains(g, s, slot))
            && (fault == SeatLeft <==> Expected(g, slot) && PeerOf(s, slot).connection == 0)
            && (fault in {Undecided, SeatLeft, SeatReplaced})
  {
  }

  // The first seat, in order, that is no longer held.
  predicate FirstGone(g: Game, s: Session, slot: nat)
    requires g.openings != [] && 1 <= slot <= 2
  {
    Expected(g, slot) && !Remains(g, s, slot) && (slot == 2 && Expected(g, 1) ==> Remains(g, s, 1))
  }

  lemma AllRemainIff(g: Game, s: Session)
    requires g.openings != []
    ensures AllRemain(g, s) <==> !FirstGone(g, s, 1) && !FirstGone(g, s, 2)
  {
  }

  lemma AcknowledgedIff(g: Game)
    requires Remembers(g)
    ensures AllAcknowledged(g) <==> g.b.lease.epoch != 0 && !Missing(g.b.lease.one) && !Missing(g.b.lease.two)
  {
    assert SeatOf(g.b.lease, 1) == g.b.lease.one && SeatOf(g.b.lease, 2) == g.b.lease.two;
    assert Missing(SeatOf(g.b.lease, 1)) <==> Expected(g, 1) && !HasAck(g, 1);
    assert Missing(SeatOf(g.b.lease, 2)) <==> Expected(g, 2) && !HasAck(g, 2);
  }

  // Outcomes in the order in which they take precedence.
  predicate Decides(g: Game, v: View, s: Session, now: u64, outcome: Outcome)
    requires g.openings != []
  {
    var o := Newest(g);
    var gone := !AllRemain(g, s);
    match outcome
    case LoadChanged => v.readable && v.load != o.lease.load
    case Transition => v.readable && v.load == o.lease.load && v.transition != o.lease.transition
    case NativeCleared =>
      v.readable && v.load == o.lease.load && v.transition == o.lease.transition && !SameScene(g, v)
    case SessionRetired => SameScene(g, v) && !SameSession(g, s)
    case SeatLeft =>
      SameScene(g, v) && SameSession(g, s)
      && exists slot :: 1 <= slot <= 2 && FirstGone(g, s, slot) && PeerOf(s, slot).connection == 0
    case SeatReplaced =>
      SameScene(g, v) && SameSession(g, s)
      && exists slot :: 1 <= slot <= 2 && FirstGone(g, s, slot) && PeerOf(s, slot).connection != 0
    case HostDowned => SameScene(g, v) && SameSession(g, s) && !gone && s.hostDowned
    case PeerDowned => SameScene(g, v) && SameSession(g, s) && !gone && !s.hostDowned && !NobodyDowned(g, s)
    case Arrived => SameScene(g, v) && SameSession(g, s) && !gone && NobodyDowned(g, s) && AllAcknowledged(g)
    case Deadline =>
      SameScene(g, v) && SameSession(g, s) && !gone && NobodyDowned(g, s) && !AllAcknowledged(g)
      && (now - o.lease.deferredMs) % U64_RANGE >= DEADLINE_MS
    case Undecided =>
      SameScene(g, v) && SameSession(g, s) && !gone && NobodyDowned(g, s) && !AllAcknowledged(g)
      && (now - o.lease.deferredMs) % U64_RANGE < DEADLINE_MS
    case Shutdown => false
  }

  lemma SceneDecides(g: Game, v: View, s: Session, now: u64)
    requires Remembers(g) && (!SameScene(g, v) || !SameSession(g, s))
    ensures Decides(g, v, s, now, Evaluate(g.b.lease, v, s, now))
  {
  }

  lemma SeatsDecide(g: Game, v: View, s: Session, now: u64)
    requires Remembers(g) && SameScene(g, v) && SameSession(g, s) && !AllRemain(g, s)
    ensures Decides(g, v, s, now, Evaluate(g.b.lease, v, s, now))
  {
    AllRemainIff(g, s);
    FaultIff(g, s, 1);
    FaultIff(g, s, 2);
    assert SeatOf(g.b.lease, 1) == g.b.lease.one && SeatOf(g.b.lease, 2) == g.b.lease.two;
    var slot := if FirstGone(g, s, 1) then 1 else 2;
    assert FirstGone(g, s, slot);
    assert Evaluate(g.b.lease, v, s, now) == if PeerOf(s, slot).connection == 0 then SeatLeft else SeatReplaced;
  }

  lemma QuietDecides(g: Game, v: View, s: Session, now: u64)
    requires Remembers(g) && SameScene(g, v) && SameSession(g, s) && AllRemain(g, s)
    ensures Decides(g, v, s, now, Evaluate(g.b.lease, v, s, now))
  {
    FaultIff(g, s, 1);
    FaultIff(g, s, 2);
    assert SeatOf(g.b.lease, 1) == g.b.lease.one && SeatOf(g.b.lease, 2) == g.b.lease.two;
    AcknowledgedIff(g);
  }

  lemma EvaluateDecides(g: Game, v: View, s: Session, now: u64)
    requires Remembers(g)
    ensures Decides(g, v, s, now, Evaluate(g.b.lease, v, s, now))
  {
    if !SameScene(g, v) || !SameSession(g, s) {
      SceneDecides(g, v, s, now);
    } else if !AllRemain(g, s) {
      SeatsDecide(g, v, s, now);
    } else {
      QuietDecides(g, v, s, now);
    }
  }

  // No two outcomes are called for at once.
  lemma DecidesOne(g: Game, v: View, s: Session, now: u64, a: Outcome, b: Outcome)
    requires g.openings != [] && Decides(g, v, s, now, a) && Decides(g, v, s, now, b)
    ensures a == b
  {
    AllRemainIff(g, s);
  }

  // The service gave the held lease this outcome.
  predicate Gives(g: Game, h: Game, s: Session, outcome: Outcome) {
    if outcome == Undecided then h == g
    else h.b.lease.phase != Held && |h.verdicts| == |g.verdicts| + 1 && h.verdicts[..|g.verdicts|] == g.verdicts
         && h.verdicts[|g.verdicts|].outcome == outcome && h.verdicts[|g.verdicts|].seen == Some(s)
  }

  lemma ServiceGives(g: Game, v: View, s: Session, now: u64)
    requires Invariant(g) && g.b.lease.phase == Held
    ensures Gives(g, ServiceOwner(g, v, s, now, false), s, Evaluate(g.b.lease, v, s, now))
  {
    ServiceTwoSteps(g, v, s, now);
    var d := Settle(g, g.b.(lease := Decided(g.b.lease, v, s, now)), Some(s));
    assert ServiceOwner(g, v, s, now, false) == After(d, v);
  }

  // Over every run, a service gives a held lease exactly the outcome the run calls for. In
  // particular it admits if and only if the lease's room is published, every seat connected at its
  // opening has acknowledged and is still held, the game is in the same scene, the session is the
  // one of the opening, and nobody is downed; however late it is.
  lemma ServiceDecides(enabled: bool, mask: set<nat>, es: seq<Event>, v: View, s: Session, now: u64, outcome: Outcome)
    requires Run(Begin(enabled, mask), es).b.lease.phase == Held
    ensures var g := Run(Begin(enabled, mask), es);
            && g.openings != []
            && (Gives(g, Step(g, Serve(true, v, s, now, false)), s, outcome) <==> Decides(g, v, s, now, outcome))
  {
    var g := Run(Begin(enabled, mask), es);
    BeginInvariant(enabled, mask);
    RunInvariant(Begin(enabled, mask), es);
    RunMarked(Begin(enabled, mask), es);
    HeldRemembers(g);
    EvaluateDecides(g, v, s, now);
    ServiceGives(g, v, s, now);
    if Decides(g, v, s, now, outcome) {
      DecidesOne(g, v, s, now, outcome, Evaluate(g.b.lease, v, s, now));
    }
  }

  // ---------------------------------------------------------------- the release

  // A service of a live lease releases at once if it is or has been decided, in a readable view of
  // its own load with no event that froze the party; otherwise it waits, or retires what is moot.
  lemma ReleaseIff(g: Game, v: View, s: Session, now: u64)
    requires Invariant(g) && Live(g.b)
    ensures var h := ServiceOwner(g, v, s, now, false);
            var decided := g.b.lease.phase == Releasing || Evaluate(g.b.lease, v, s, now) != Undecided;
            var free := v.eventContext == 0 || v.eventFreeze == Spares;
            var groups := v.mask * HeldGroups(g.b.lease);
            && (|h.replays| == |g.replays| + 1 <==> decided && v.readable && v.load == g.b.lease.load && free && groups != {})
            && (|h.replays| > |g.replays| ==> h.mask == g.mask - groups && h.b.lease.phase == Done)
            && (|h.replays| == |g.replays| ==> h.mask == g.mask)
            && (h.b.lease.phase == Done <==> decided && v.readable && (v.load != g.b.lease.load || free))
  {
    ServiceTwoSteps(g, v, s, now);
  }

  // ---------------------------------------------------------------- arming, deferring, acknowledging

  // A request and the load it asked for arm the barrier exactly when the request leads from the
  // mansion to the target and the load is the one it asked for.
  lemma ArmedIff(g: Game, from: Place, to: Place, next: u32, v: View, s: Session, now: u64, load: u32, transition: u32)
    ensures var h := Step(Step(g, Request(true, from, to, next, v, s, now, false)), Load(true, load, transition));
            && (h.b.armed.bound <==> from.world == 2 && from.room == 19 && from.battle == 134 && to == TARGET && transition == next)
            && (h.b.armed.bound ==> h.b.armed.load == load && h.b.armed.transition == transition)
  {
  }

  // The teardown's first call is deferred, and a lease opened under this session, exactly when the
  // barrier is armed for the scene and a friend is seated before the room is published.
  lemma FirstDeferredIff(g: Game, v: View, s: Session, now: u64, challenge: u64)
    ensures var h := Step(g, Call(true, 0, GROUP0_CALLER, v, s, now, challenge));
            && (|h.openings| == |g.openings| + 1 <==>
                  && g.b.enabled && (g.b.lease.phase == Idle || g.b.lease.phase == Done) && g.b.armed.bound
                  && v.readable && v.load == g.b.armed.load && v.transition == g.b.armed.transition && !v.pending
                  && v.room == TARGET && v.eventContext != 0
                  && s.host && s.generation != 0 && s.hostDelivery != 0 && s.publicationPending && challenge != 0
                  && (s.one.connection != 0 || s.two.connection != 0))
            && (|h.openings| > |g.openings| ==>
                  && h.b.lease.phase == Held && h.b.lease.deferred == {0} && h.b.lease.owned == {3, 4} - v.mask
                  && h.mask == g.mask + ({3, 4} - v.mask) && h.b.lease.load == v.load && h.b.lease.deferredMs == now
                  && h.b.lease.challenge == challenge && h.openings[|g.openings|].session == s)
  {
  }

  // The second call joins the lease exactly when it comes straight after the first, in its scene.
  lemma SecondDeferredIff(g: Game, v: View, s: Session, now: u64, challenge: u64)
    ensures var h := Step(g, Call(true, 1, GROUP1_CALLER, v, s, now, challenge));
            var joins := && g.b.enabled && g.b.lease.phase == Held && g.b.lease.deferred == {0} && v.readable
                         && v.load == g.b.lease.load && v.transition == g.b.lease.transition
                         && v.eventContext == g.b.lease.eventContext;
            if joins then h.b.lease.deferred == {0, 1} && h.openings == g.openings && g.mask <= h.mask
            else h == g.(mask := g.mask - {1})
  {
  }

  // The room's epoch is taken once, for the held lease's own challenge.
  lemma PublishedIff(g: Game, epoch: u32, challenge: u64)
    ensures var h := Step(g, Publish(true, epoch, challenge));
            if g.b.lease.phase == Held && g.b.lease.epoch == 0 && epoch != 0 && challenge == g.b.lease.challenge
            then h == g.(b := h.b) && h.b.lease == g.b.lease.(epoch := epoch)
            else h == g
  {
  }

  // An acknowledgement is accepted exactly on the terms of the held lease, told from its opening,
  // and once for each seat.
  lemma AcceptedIff(enabled: bool, mask: set<nat>, es: seq<Event>, a: AckMessage, v: View, s: Session, now: u64)
    requires Run(Begin(enabled, mask), es).b.lease.phase == Held
    ensures var g := Run(Begin(enabled, mask), es);
            var h := Step(g, AckIn(true, a, v, s, now, false));
            && g.openings != []
            && (|h.accepted| == |g.accepted| + 1 <==>
                  && g.b.lease.epoch != 0 && a.epoch == g.b.lease.epoch && a.challenge == Newest(g).lease.challenge
                  && a.room == TARGET && 1 <= a.slot <= 2 && Expected(g, a.slot) && !HasAck(g, a.slot)
                  && a.connection == PeerOf(Newest(g).session, a.slot).connection
                  && (PeerOf(Newest(g).session, a.slot).delivery != 0 ==> a.delivery == PeerOf(Newest(g).session, a.slot).delivery))
  {
    var g := Run(Begin(enabled, mask), es);
    BeginInvariant(enabled, mask);
    RunInvariant(Begin(enabled, mask), es);
    RunMarked(Begin(enabled, mask), es);
    HeldRemembers(g);
    if Accepts(g.b.lease, a) {
      assert 1 <= a.slot <= 2;
      ServiceKeepsSeats(OnAck(g, a), v, s, now, false);
    } else if 1 <= a.slot <= 2 {
      assert SeatOf(g.b.lease, a.slot).connection == PeerOf(Newest(g).session, a.slot).connection || !Expected(g, a.slot);
    }
  }
}
