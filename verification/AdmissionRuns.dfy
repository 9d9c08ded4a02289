// The barrier together with the game's frozen mask, step by step as the native adapter applies it
// (inject/src/CombatAdmissionNative.hpp): which bits the barrier may clear, and what a decision means.
module AdmissionRuns {
  import opened Common
  import opened Admission

  // One replay of deferred and owned clears, made in view of a load.
  datatype Replay = Replay(incarnation: nat, leaseLoad: u32, viewLoad: u32, held: set<nat>, groups: set<nat>)

  // A lease as it began, with the session it was deferred under.
  datatype Opening = Opening(session: Session, lease: Lease)

  // A lease as it was decided, with the session the deciding service saw.
  datatype Verdict = Verdict(lease: Lease, outcome: Outcome, seen: Option<Session>)

  datatype Accepted = Accepted(incarnation: nat, message: AckMessage)

  // The barrier, the game's mask, and what has happened so far.
  datatype Game = Game(
    b: Barrier, mask: set<nat>, replays: seq<Replay>, openings: seq<Opening>, verdicts: seq<Verdict>, accepted: seq<Accepted>)

  // Every barrier step runs on the game's own thread; `owner` is that check.
  datatype Event =
    | Freeze(group: nat)
    | Clears(groups: set<nat>)
    | Call(owner: bool, called: nat, caller: nat, v: View, s: Session, now: u64, challenge: u64)
    | Request(owner: bool, from: Place, to: Place, next: u32, v: View, s: Session, now: u64, shutdown: bool)
    | Load(owner: bool, load: u32, transition: u32)
    | Serve(owner: bool, v: View, s: Session, now: u64, shutdown: bool)
    | Publish(owner: bool, epoch: u32, challenge: u64)
    | AckIn(owner: bool, message: AckMessage, v: View, s: Session, now: u64, shutdown: bool)

  // A readable view samples the mask as it is.
  predicate Sampled(mask: set<nat>, v: View) { v.readable ==> v.mask == mask }

  predicate Samples(g: Game, e: Event) {
    match e
    case Call(_, _, _, v, _, _, _) => Sampled(g.mask, v)
    case Request(_, _, _, _, v, _, _, _) => Sampled(g.mask, v)
    case Serve(_, v, _, _, _) => Sampled(g.mask, v)
    case AckIn(_, _, v, _, _, _) => Sampled(g.mask, v)
    case _ => true
  }

  // The lease as it was decided.
  function AsDecided(l: Lease): Lease { l.(phase := Releasing, retired := false) }

  // The barrier moved from g.b to b: a lease that stops being held has just been decided.
  function Settle(g: Game, b: Barrier, seen: Option<Session>): Game {
    if g.b.lease.phase == Held && b.lease.phase != Held then
      g.(b := b, verdicts := g.verdicts + [Verdict(AsDecided(b.lease), b.lease.outcome, seen)])
    else g.(b := b)
  }

  // Apply: the replay clears its groups and is noted; nothing else touches the mask.
  function Apply(g: Game, action: Action, v: View): Game {
    match action
    case Release(groups, incarnation) =>
      g.(mask := g.mask - groups, b := NoteReleased(g.b, incarnation, groups),
         replays := g.replays + [Replay(incarnation, g.b.lease.load, v.load, HeldGroups(g.b.lease), groups)])
    case _ => g
  }

  function ServiceOwner(g: Game, v: View, s: Session, now: u64, shutdown: bool): Game {
    if !Live(g.b) then g
    else
      var h := if shutdown then Settle(g, RequestShutdown(g.b), None) else g;
      var (b, action) := Service(h.b, v, s, now);
      Apply(Settle(h, b, Some(s)), action, v)
  }

  // The game calls its group clear; a deferred call is not made, and a fresh lease freezes its own.
  function OnCall(g: Game, group: nat, caller: nat, v: View, s: Session, now: u64, challenge: u64): Game {
    var (b, deferred) := OnUnfreeze(g.b, group, caller, v, s, now, challenge);
    if !deferred then g.(mask := g.mask - {group})
    else
      var own := OwnCandidates(b, v);
      var noted := if own == {} then b else NoteOwned(b, b.lease.incarnation, own);
      g.(b := noted, mask := g.mask + own,
         openings := if b.incarnations > g.b.incarnations then g.openings + [Opening(s, b.lease)] else g.openings)
  }

  function OnRequest(g: Game, from: Place, to: Place, next: u32, v: View, s: Session, now: u64, shutdown: bool): Game {
    var h := if g.b.lease.phase == Held then ServiceOwner(Settle(g, BeforeTransition(g.b), None), v, s, now, shutdown) else g;
    h.(b := NoteRequest(h.b, from, to, next))
  }

  function OnAck(g: Game, a: AckMessage): Game {
    if Accepts(g.b.lease, a) then g.(b := TakeAck(g.b, a), accepted := g.accepted + [Accepted(g.b.lease.incarnation, a)]) else g
  }

  function Step(g: Game, e: Event): Game {
    match e
    case Freeze(group) => g.(mask := g.mask + {group})
    case Clears(groups) => g.(mask := g.mask - groups)
    case Call(owner, group, caller, v, s, now, challenge) =>
      if owner then OnCall(g, group, caller, v, s, now, challenge) else g.(mask := g.mask - {group})
    case Request(owner, from, to, next, v, s, now, shutdown) =>
      if owner then OnRequest(g, from, to, next, v, s, now, shutdown) else g
    case Load(owner, load, transition) =>
      if owner then Settle(g, NoteLoad(g.b, load, transition).0, None) else g
    case Serve(owner, v, s, now, shutdown) => if owner then ServiceOwner(g, v, s, now, shutdown) else g
    case Publish(owner, epoch, challenge) => if owner then g.(b := NotePublished(g.b, epoch, challenge)) else g
    case AckIn(owner, a, v, s, now, shutdown) =>
      if !owner then g
      else if Accepts(g.b.lease, a) then ServiceOwner(OnAck(g, a), v, s, now, shutdown) else g
  }

  function Begin(enabled: bool, mask: set<nat>): Game { Game(Admission.Start(enabled), mask, [], [], [], []) }

  function Run(g: Game, es: seq<Event>): Game
    decreases |es|
  {
    if es == [] then g else Run(Step(g, es[0]), es[1..])
  }

  // ---------------------------------------------------------------- one lease over time

  // The terms a lease keeps from its first moment.
  predicate SameTerms(a: Lease, b: Lease) {
    && a.incarnation == b.incarnation && a.challenge == b.challenge && a.generation == b.generation && a.load == b.load
    && a.transition == b.transition && a.hostDelivery == b.hostDelivery && a.eventContext == b.eventContext
    && a.deferredMs == b.deferredMs && SameSeat(a.one, b.one) && SameSeat(a.two, b.two)
  }

  predicate SameSeat(a: Seat, b: Seat) { a.connection == b.connection && a.delivery == b.delivery && a.required == b.required }

  // How a lease may change while it stays the same lease.
  predicate Continues(a: Lease, b: Lease) {
    && SameTerms(a, b)
    && (a.epoch != 0 ==> b.epoch == a.epoch)
    && (a.outcome != Undecided ==> b.outcome == a.outcome)
    && (a.phase == Done ==> b.phase == Done) && (a.phase == Releasing ==> b.phase != Held && b.phase != Idle)
    && (a.one.acked ==> b.one.acked) && (a.two.acked ==> b.two.acked)
    && a.deferred <= b.deferred && a.owned <= b.owned
  }

  // ---------------------------------------------------------------- the invariant

  // The leases so far are numbered from one, and each but a held one has exactly one verdict.
  predicate Numbered(g: Game) {
    && g.b.lease.incarnation == g.b.incarnations == |g.openings|
    && |g.verdicts| == (if g.b.lease.phase == Held then g.b.incarnations - 1 else g.b.incarnations)
    && (forall i :: 0 <= i < |g.openings| ==> g.openings[i].lease.incarnation == i + 1)
    && (forall i :: 0 <= i < |g.verdicts| ==>
          g.verdicts[i].lease.incarnation == i + 1 && g.verdicts[i].outcome == g.verdicts[i].lease.outcome
          && g.verdicts[i].outcome != Undecided && SameTerms(g.openings[i].lease, g.verdicts[i].lease))
    && (g.openings != [] ==> SameTerms(g.openings[|g.openings| - 1].lease, g.b.lease))
    && (g.b.lease.phase == Releasing || g.b.lease.phase == Done ==>
          g.verdicts != [] && g.verdicts[|g.verdicts| - 1].outcome == g.b.lease.outcome)
  }

  predicate Opened(o: Opening) {
    o.lease.one == SeatFor(o.session.one) && o.lease.two == SeatFor(o.session.two) && o.lease.challenge != 0
  }

  // Replays come from the leases, at most one each, inside what the lease held, in its own load.
  predicate Replayed(g: Game) {
    && (forall i :: 0 <= i < |g.replays| ==>
          var r := g.replays[i];
          && r.groups <= r.held && r.held <= {0, 1, 3, 4} && r.viewLoad == r.leaseLoad && 0 < r.incarnation <= g.b.incarnations
          && (r.incarnation == g.b.lease.incarnation ==> g.b.lease.phase == Done))
    && forall i, j :: 0 <= i < j < |g.replays| ==> g.replays[i].incarnation != g.replays[j].incarnation
  }

  // The acknowledgement a seat's mark stands for.
  predicate Backs(a: Accepted, l: Lease, slot: nat) {
    && a.incarnation == l.incarnation && a.message.slot == slot && a.message.challenge == l.challenge
    && a.message.epoch == l.epoch && a.message.room == TARGET && a.message.connection == SeatOf(l, slot).connection
    && (SeatOf(l, slot).delivery != 0 ==> a.message.delivery == SeatOf(l, slot).delivery)
  }

  predicate Backed(acks: seq<Accepted>, l: Lease) {
    forall slot :: 1 <= slot <= 2 && SeatOf(l, slot).acked ==>
      l.epoch != 0 && SeatOf(l, slot).required && exists k :: 0 <= k < |acks| && Backs(acks[k], l, slot)
  }

  function PeerOf(s: Session, slot: nat): Peer
    requires 1 <= slot <= 2
  {
    if slot == 1 then s.one else s.two
  }

  // Every seat the lease waits for is still held by its connection and delivery.
  predicate Seated(l: Lease, s: Session) {
    forall slot :: 1 <= slot <= 2 && SeatOf(l, slot).required ==>
      && PeerOf(s, slot).connection == SeatOf(l, slot).connection
      && (SeatOf(l, slot).delivery != 0 ==> PeerOf(s, slot).delivery == SeatOf(l, slot).delivery)
  }

  // An admission had every seat's acknowledgement, and every seat still held.
  predicate Sound(acks: seq<Accepted>, v: Verdict) {
    v.outcome == Arrived ==>
    Backed(acks, v.lease) && v.lease.epoch != 0
    && v.seen.Some? && Seated(v.lease, v.seen.value)
    && forall slot :: 1 <= slot <= 2 ==> SeatOf(v.lease, slot).required ==> SeatOf(v.lease, slot).acked
  }

  predicate Invariant(g: Game) {
    && LeaseShape(g.b.lease) && Numbered(g) && Replayed(g) && Backed(g.accepted, g.b.lease)
    && (forall i :: 0 <= i < |g.openings| ==> Opened(g.openings[i]))
    && (forall i :: 0 <= i < |g.verdicts| ==> Sound(g.accepted, g.verdicts[i]))
  }

  // ---------------------------------------------------------------- moves of the barrier alone

  lemma BackedContinues(acks: seq<Accepted>, a: Lease, b: Lease)
    requires Backed(acks, a) && Continues(a, b) && b.one.acked == a.one.acked && b.two.acked == a.two.acked
    requires a.epoch == b.epoch || (!a.one.acked && !a.two.acked)
    ensures Backed(acks, b)
  {
    forall slot | 1 <= slot <= 2 && SeatOf(b, slot).acked
      ensures b.epoch != 0 && SeatOf(b, slot).required && exists k :: 0 <= k < |acks| && Backs(acks[k], b, slot)
    {
      assert SeatOf(a, slot).acked;
      var k :| 0 <= k < |acks| && Backs(acks[k], a, slot);
      assert Backs(acks[k], b, slot);
    }
  }

  // The lease stays the same lease, is not decided here, and nothing was replayed.
  lemma KeepsInvariant(g: Game, b: Barrier)
    requires Invariant(g) && b.incarnations == g.b.incarnations && LeaseShape(b.lease) && Continues(g.b.lease, b.lease)
    requires b.lease.phase == g.b.lease.phase
    requires b.lease.one.acked == g.b.lease.one.acked && b.lease.two.acked == g.b.lease.two.acked
    requires b.lease.epoch == g.b.lease.epoch || (!g.b.lease.one.acked && !g.b.lease.two.acked)
    ensures Invariant(g.(b := b))
  {
    BackedContinues(g.accepted, g.b.lease, b.lease);
    if g.openings != [] {
      SameTermsChain(g.openings[|g.openings| - 1].lease, g.b.lease, b.lease);
    }
  }

  lemma SameTermsChain(a: Lease, b: Lease, c: Lease)
    requires SameTerms(a, b) && SameTerms(b, c)
    ensures SameTerms(a, c)
  {
  }

  // The held lease is decided: one verdict is added.
  lemma DecidedInvariant(g: Game, b: Barrier, seen: Option<Session>)
    requires Invariant(g) && g.b.lease.phase == Held
    requires b.incarnations == g.b.incarnations && LeaseShape(b.lease) && Continues(g.b.lease, b.lease)
    requires b.lease.phase == Releasing || b.lease.phase == Done
    requires b.lease.epoch == g.b.lease.epoch
    requires b.lease.one == g.b.lease.one && b.lease.two == g.b.lease.two
    requires Sound(g.accepted, Verdict(AsDecided(b.lease), b.lease.outcome, seen))
    ensures Invariant(Settle(g, b, seen))
  {
    var h := Settle(g, b, seen);
    BackedContinues(g.accepted, g.b.lease, b.lease);
    assert |g.openings| == |g.verdicts| + 1;
    SameTermsChain(g.openings[|g.openings| - 1].lease, g.b.lease, b.lease);
    assert h.verdicts[|h.verdicts| - 1] == Verdict(AsDecided(b.lease), b.lease.outcome, seen);
  }

  // A releasing lease is done, with no replay.
  lemma RetiredInvariant(g: Game, b: Barrier)
    requires Invariant(g) && g.b.lease.phase == Releasing && b == g.b.(lease := RetireLease(g.b.lease))
    ensures Invariant(g.(b := b))
  {
    BackedContinues(g.accepted, g.b.lease, b.lease);
    if g.openings != [] {
      SameTermsChain(g.openings[|g.openings| - 1].lease, g.b.lease, b.lease);
    }
  }

  lemma DecideInvariant(g: Game, outcome: Outcome, seen: Option<Session>)
    requires Invariant(g) && outcome != Undecided
    requires outcome == Arrived ==> g.b.lease.epoch != 0 && !Missing(g.b.lease.one) && !Missing(g.b.lease.two)
    requires outcome == Arrived ==> seen.Some? && Seated(g.b.lease, seen.value)
    ensures Invariant(Settle(g, g.b.(lease := Decide(g.b.lease, outcome)), seen))
  {
    if g.b.lease.phase == Held {
      var l := Decide(g.b.lease, outcome);
      assert Continues(g.b.lease, l);
      BackedContinues(g.accepted, g.b.lease, l);
      assert Sound(g.accepted, Verdict(l, outcome, seen));
      DecidedInvariant(g, g.b.(lease := l), seen);
    } else {
      assert g.b.(lease := Decide(g.b.lease, outcome)) == g.b;
    }
  }

  // ---------------------------------------------------------------- service

  lemma EvaluateArrived(l: Lease, v: View, s: Session, now: u64)
    requires Evaluate(l, v, s, now) == Arrived
    ensures l.epoch != 0 && !Missing(l.one) && !Missing(l.two)
    ensures Seated(l, s)
  {
  }

  lemma DecidedIsDecide(g: Game, v: View, s: Session, now: u64)
    requires Invariant(g)
    ensures Invariant(Settle(g, g.b.(lease := Decided(g.b.lease, v, s, now)), Some(s)))
  {
    var outcome := Evaluate(g.b.lease, v, s, now);
    if g.b.lease.phase == Held && outcome != Undecided {
      if outcome == Arrived {
        EvaluateArrived(g.b.lease, v, s, now);
      }
      DecideInvariant(g, outcome, Some(s));
    } else {
      assert g.b.(lease := Decided(g.b.lease, v, s, now)) == g.b;
    }
  }

  // Service is its decision, followed at once by the release, the retirement or nothing.
  lemma ServiceTwoSteps(g: Game, v: View, s: Session, now: u64)
    requires LeaseShape(g.b.lease) && Live(g.b)
    ensures var d := Settle(g, g.b.(lease := Decided(g.b.lease, v, s, now)), Some(s));
            var (b, action) := Service(g.b, v, s, now);
            Apply(Settle(g, b, Some(s)), action, v) == After(d, v)
  {
  }

  // What is done with a decided lease.
  function After(d: Game, v: View): Game {
    var l := d.b.lease;
    if l.phase != Releasing || !v.readable then d
    else if v.load != l.load then Retired(d)
    else if v.eventContext != 0 && v.eventFreeze != Spares then d
    else if v.mask * HeldGroups(l) - l.released == {} then Retired(d)
    else Apply(d, Release(v.mask * HeldGroups(l) - l.released, l.incarnation), v)
  }

  function Retired(d: Game): Game { d.(b := d.b.(lease := RetireLease(d.b.lease))) }

  // The replay comes from the releasing lease, and is its first.
  lemma ReplayIsFirst(d: Game, v: View, groups: set<nat>)
    requires Invariant(d) && d.b.lease.phase == Releasing && v.load == d.b.lease.load && groups <= HeldGroups(d.b.lease)
    ensures Replayed(Apply(d, Release(groups, d.b.lease.incarnation), v))
  {
    var r := Apply(d, Release(groups, d.b.lease.incarnation), v);
    var last := Replay(d.b.lease.incarnation, d.b.lease.load, v.load, HeldGroups(d.b.lease), groups);
    assert r.replays == d.replays + [last];
    assert HeldGroups(d.b.lease) <= {0, 1, 3, 4};
    forall i | 0 <= i < |d.replays| ensures d.replays[i].incarnation != d.b.lease.incarnation {
    }
  }

  lemma ReplayKeepsTerms(d: Game, v: View, groups: set<nat>)
    requires Invariant(d) && d.b.lease.phase == Releasing
    ensures var r := Apply(d, Release(groups, d.b.lease.incarnation), v);
            LeaseShape(r.b.lease) && Numbered(r)
  {
    var r := Apply(d, Release(groups, d.b.lease.incarnation), v);
    if d.openings != [] {
      SameTermsChain(d.openings[|d.openings| - 1].lease, d.b.lease, r.b.lease);
    }
  }

  lemma ReplayInvariant(d: Game, v: View, groups: set<nat>)
    requires Invariant(d) && d.b.lease.phase == Releasing && v.load == d.b.lease.load && groups <= HeldGroups(d.b.lease)
    ensures Invariant(Apply(d, Release(groups, d.b.lease.incarnation), v))
  {
    ReplayIsFirst(d, v, groups);
    ReplayKeepsTerms(d, v, groups);
    BackedContinues(d.accepted, d.b.lease, Apply(d, Release(groups, d.b.lease.incarnation), v).b.lease);
  }

  lemma AfterInvariant(d: Game, v: View)
    requires Invariant(d)
    ensures Invariant(After(d, v))
  {
    var l := d.b.lease;
    if l.phase == Releasing && v.readable {
      if v.load != l.load {
        RetiredInvariant(d, d.b.(lease := RetireLease(l)));
      } else if v.eventContext == 0 || v.eventFreeze == Spares {
        if v.mask * HeldGroups(l) - l.released == {} {
          RetiredInvariant(d, d.b.(lease := RetireLease(l)));
        } else {
          ReplayInvariant(d, v, v.mask * HeldGroups(l) - l.released);
        }
      }
    }
  }

  lemma ServiceInvariant(g: Game, v: View, s: Session, now: u64, shutdown: bool)
    requires Invariant(g)
    ensures Invariant(ServiceOwner(g, v, s, now, shutdown))
  {
    if Live(g.b) {
      var h := if shutdown then Settle(g, RequestShutdown(g.b), None) else g;
      DecideInvariant(g, Shutdown, None);
      ServiceTwoSteps(h, v, s, now);
      DecidedIsDecide(h, v, s, now);
      AfterInvariant(Settle(h, h.b.(lease := Decided(h.b.lease, v, s, now)), Some(s)), v);
    }
  }

  // ---------------------------------------------------------------- the other steps

  // A new lease opens when the last one is done.
  lemma OpeningInvariant(g: Game, v: View, s: Session, now: u64, challenge: u64)
    requires Invariant(g) && DefersFirst(g.b, v, s, challenge)
    ensures var b := OnUnfreeze(g.b, 0, GROUP0_CALLER, v, s, now, challenge).0;
            Invariant(g.(b := b, openings := g.openings + [Opening(s, b.lease)]))
  {
    var b := OnUnfreeze(g.b, 0, GROUP0_CALLER, v, s, now, challenge).0;
    var h := g.(b := b, openings := g.openings + [Opening(s, b.lease)]);
    forall i | 0 <= i < |g.verdicts| ensures SameTerms(h.openings[i].lease, h.verdicts[i].lease) {
      assert h.openings[i] == g.openings[i];
    }
    assert Opened(Opening(s, b.lease));
  }

  lemma OwnedInvariant(g: Game, own: set<nat>)
    requires Invariant(g)
    ensures Invariant(g.(b := NoteOwned(g.b, g.b.lease.incarnation, own)))
  {
    KeepsInvariant(g, NoteOwned(g.b, g.b.lease.incarnation, own));
  }

  lemma MaskIsFree(g: Game, mask: set<nat>)
    requires Invariant(g)
    ensures Invariant(g.(mask := mask))
  {
  }

  // The call was deferred: the lease was opened or goes on, before it owns anything.
  lemma DeferredInvariant(g: Game, group: nat, caller: nat, v: View, s: Session, now: u64, challenge: u64)
    requires Invariant(g) && OnUnfreeze(g.b, group, caller, v, s, now, challenge).1
    ensures var b := OnUnfreeze(g.b, group, caller, v, s, now, challenge).0;
            Invariant(g.(b := b, openings := if b.incarnations > g.b.incarnations then g.openings + [Opening(s, b.lease)] else g.openings))
  {
    var b := OnUnfreeze(g.b, group, caller, v, s, now, challenge).0;
    if b.incarnations > g.b.incarnations {
      OpeningInvariant(g, v, s, now, challenge);
    } else {
      assert {0} <= {0, 1};
      KeepsInvariant(g, b);
    }
  }

  lemma CallInvariant(g: Game, group: nat, caller: nat, v: View, s: Session, now: u64, challenge: u64)
    requires Invariant(g)
    ensures Invariant(OnCall(g, group, caller, v, s, now, challenge))
  {
    var (b, deferred) := OnUnfreeze(g.b, group, caller, v, s, now, challenge);
    if !deferred {
      MaskIsFree(g, g.mask - {group});
    } else {
      var own := OwnCandidates(b, v);
      var h := g.(b := b, openings := if b.incarnations > g.b.incarnations then g.openings + [Opening(s, b.lease)] else g.openings);
      DeferredInvariant(g, group, caller, v, s, now, challenge);
      OwnedInvariant(h, own);
      MaskIsFree(h.(b := NoteOwned(b, b.lease.incarnation, own)), g.mask + own);
      MaskIsFree(h, g.mask + own);
    }
  }

  lemma LoadInvariant(g: Game, load: u32, transition: u32)
    requires Invariant(g)
    ensures Invariant(Settle(g, NoteLoad(g.b, load, transition).0, None))
  {
    var b := NoteLoad(g.b, load, transition).0;
    if !Live(g.b) || g.b.lease.load == load {
      KeepsInvariant(g, b);
    } else if g.b.lease.phase == Held {
      DecideInvariant(g, LoadChanged, None);
      var d := Settle(g, g.b.(lease := Decide(g.b.lease, LoadChanged)), None);
      RetiredInvariant(d, d.b.(lease := RetireLease(d.b.lease)));
      var r := d.(b := d.b.(lease := RetireLease(d.b.lease)));
      KeepsInvariant(r, r.b.(armed := b.armed));
      assert Settle(g, b, None) == r.(b := r.b.(armed := b.armed));
    } else {
      RetiredInvariant(g, g.b.(lease := RetireLease(g.b.lease)));
      var r := g.(b := g.b.(lease := RetireLease(g.b.lease)));
      KeepsInvariant(r, r.b.(armed := b.armed));
    }
  }

  lemma AckInvariant(g: Game, a: AckMessage)
    requires Invariant(g) && Accepts(g.b.lease, a)
    ensures Invariant(OnAck(g, a))
  {
    var h := OnAck(g, a);
    assert a.slot == 1 || a.slot == 2;
    var rec := Accepted(g.b.lease.incarnation, a);
    assert Backs(rec, h.b.lease, a.slot);
    assert h.accepted[|g.accepted|] == rec;
    MoreAcks(g.accepted, rec, g.b.lease);
    forall slot | 1 <= slot <= 2 && SeatOf(h.b.lease, slot).acked
      ensures h.b.lease.epoch != 0 && SeatOf(h.b.lease, slot).required
      ensures exists k :: 0 <= k < |h.accepted| && Backs(h.accepted[k], h.b.lease, slot)
    {
      if slot != a.slot {
        assert SeatOf(g.b.lease, slot).acked;
        var k :| 0 <= k < |h.accepted| && Backs(h.accepted[k], g.b.lease, slot);
        assert Backs(h.accepted[k], h.b.lease, slot);
      }
    }
    forall i | 0 <= i < |g.verdicts| ensures Sound(h.accepted, g.verdicts[i]) {
      MoreAcksVerdict(g.accepted, rec, g.verdicts[i]);
    }
    if g.openings != [] {
      SameTermsChain(g.openings[|g.openings| - 1].lease, g.b.lease, h.b.lease);
    }
  }

  lemma MoreAcks(acks: seq<Accepted>, a: Accepted, l: Lease)
    requires Backed(acks, l)
    ensures Backed(acks + [a], l)
  {
    forall slot | 1 <= slot <= 2 && SeatOf(l, slot).acked
      ensures exists k :: 0 <= k < |acks + [a]| && Backs((acks + [a])[k], l, slot)
    {
      var k :| 0 <= k < |acks| && Backs(acks[k], l, slot);
      assert (acks + [a])[k] == acks[k];
    }
  }

  lemma MoreAcksVerdict(acks: seq<Accepted>, a: Accepted, v: Verdict)
    requires Sound(acks, v)
    ensures Sound(acks + [a], v)
  {
    if v.outcome == Arrived {
      MoreAcks(acks, a, v.lease);
    }
  }

  lemma RequestInvariant(g: Game, from: Place, to: Place, next: u32, v: View, s: Session, now: u64, shutdown: bool)
    requires Invariant(g)
    ensures Invariant(OnRequest(g, from, to, next, v, s, now, shutdown))
  {
    var h := g;
    if g.b.lease.phase == Held {
      DecideInvariant(g, Transition, None);
      ServiceInvariant(Settle(g, BeforeTransition(g.b), None), v, s, now, shutdown);
      h := ServiceOwner(Settle(g, BeforeTransition(g.b), None), v, s, now, shutdown);
    }
    KeepsInvariant(h, NoteRequest(h.b, from, to, next));
  }

  lemma StepInvariant(g: Game, e: Event)
    requires Invariant(g)
    ensures Invariant(Step(g, e))
  {
    match e
    case Freeze(group) => MaskIsFree(g, g.mask + {group});
    case Clears(groups) => MaskIsFree(g, g.mask - groups);
    case Call(owner, group, caller, v, s, now, challenge) =>
      if owner {
        CallInvariant(g, group, caller, v, s, now, challenge);
      } else {
        MaskIsFree(g, g.mask - {group});
      }
    case Request(owner, from, to, next, v, s, now, shutdown) =>
      if owner {
        RequestInvariant(g, from, to, next, v, s, now, shutdown);
      }
    case Load(owner, load, transition) =>
      if owner {
        LoadInvariant(g, load, transition);
      }
    case Serve(owner, v, s, now, shutdown) =>
      if owner {
        ServiceInvariant(g, v, s, now, shutdown);
      }
    case Publish(owner, epoch, challenge) =>
      if owner {
        KeepsInvariant(g, NotePublished(g.b, epoch, challenge));
      }
    case AckIn(owner, a, v, s, now, shutdown) =>
      if owner && Accepts(g.b.lease, a) {
        AckInvariant(g, a);
        ServiceInvariant(OnAck(g, a), v, s, now, shutdown);
      }
  }

  lemma {:induction false} RunInvariant(g: Game, es: seq<Event>)
    requires Invariant(g)
    ensures Invariant(Run(g, es))
    decreases |es|
  {
    if es != [] {
      StepInvariant(g, es[0]);
      RunInvariant(Step(g, es[0]), es[1..]);
    }
  }

  lemma BeginInvariant(enabled: bool, mask: set<nat>)
    ensures Invariant(Begin(enabled, mask))
  {
  }
}
