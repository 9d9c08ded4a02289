// Whose bits a release clears: the barrier owns a group of the frozen mask by its bit, so the
// game's own writes between the deferral and the release decide whether the bit is still the one
// the lease set.
module AdmissionOwnership {
  import opened Common
  import opened Admission
  import opened AdmissionRuns
  import opened AdmissionSafety

  // A write of the game to its own mask.
  datatype Write = Froze(group: nat) | Cleared(groups: set<nat>)

  // The run so far, the groups the lease froze whose bits have stayed set since, and the game's
  // writes since the deferral.
  datatype Watch = Watch(g: Game, ours: set<nat>, writes: seq<Write>)

  // A call that is not deferred is the game's own clear.
  function WritesOf(g: Game, e: Event): seq<Write> {
    match e
    case Freeze(group) => [Froze(group)]
    case Clears(groups) => [Cleared(groups)]
    case Call(owner, group, caller, v, s, now, challenge) =>
      if owner && OnUnfreeze(g.b, group, caller, v, s, now, challenge).1 then [] else [Cleared({group})]
    case _ => []
  }

  function Without(ours: set<nat>, writes: seq<Write>): set<nat> {
    if writes == [] then ours
    else Without(if writes[0].Cleared? then ours - writes[0].groups else ours, writes[1..])
  }

  predicate Opens(g: Game, e: Event) { Step(g, e).b.incarnations > g.b.incarnations }

  function Observe(w: Watch, e: Event): Watch {
    var h := Step(w.g, e);
    if Opens(w.g, e) then Watch(h, h.b.lease.owned, [])
    else Watch(h, Without(w.ours, WritesOf(w.g, e)), w.writes + WritesOf(w.g, e))
  }

  function Watched(w: Watch, es: seq<Event>): Watch
    decreases |es|
  {
    if es == [] then w else Watched(Observe(w, es[0]), es[1..])
  }

  function Unwatched(enabled: bool, mask: set<nat>): Watch { Watch(Begin(enabled, mask), {}, []) }

  // Every readable view of the run samples the mask as it then is.
  predicate Sampling(g: Game, es: seq<Event>)
    decreases |es|
  {
    es != [] ==> Samples(g, es[0]) && Sampling(Step(g, es[0]), es[1..])
  }

  // ---------------------------------------------------------------- what the writes come to

  predicate ClearsAt(writes: seq<Write>, i: nat, group: nat)
    requires i < |writes|
  {
    writes[i].Cleared? && group in writes[i].groups
  }

  // A bit set at first is set after these writes.
  predicate Standing(writes: seq<Write>, group: nat) {
    writes == [] ||
    var n := |writes| - 1;
    if ClearsAt(writes, n, group) then false else writes[n] == Froze(group) || Standing(writes[..n], group)
  }

  predicate Untouched(writes: seq<Write>, group: nat) {
    forall i :: 0 <= i < |writes| ==> !ClearsAt(writes, i, group)
  }

  // The game cleared the group, then froze it, and has not cleared it since.
  predicate Refrozen(writes: seq<Write>, group: nat) {
    exists i, j :: 0 <= i < j < |writes| && ClearsAt(writes, i, group) && FrozenFrom(writes, j, group)
  }

  predicate FrozenFrom(writes: seq<Write>, j: nat, group: nat)
    requires j < |writes|
  {
    writes[j] == Froze(group) && forall k :: j < k < |writes| ==> !ClearsAt(writes, k, group)
  }

  lemma {:induction false} FrozenStands(writes: seq<Write>, j: nat, group: nat)
    requires j < |writes| && FrozenFrom(writes, j, group)
    ensures Standing(writes, group)
    decreases |writes|
  {
    var n := |writes| - 1;
    if j < n {
      assert !ClearsAt(writes, n, group);
      forall k | j < k < n ensures !ClearsAt(writes[..n], k, group) {
        assert !ClearsAt(writes, k, group);
      }
      FrozenStands(writes[..n], j, group);
    }
  }

  // A bit that stands after some clear was frozen again after it.
  lemma {:induction false} StandsRefrozen(writes: seq<Write>, group: nat, i: nat)
    requires Standing(writes, group) && i < |writes| && ClearsAt(writes, i, group)
    ensures Refrozen(writes, group)
    decreases |writes|
  {
    var n := |writes| - 1;
    if writes[n] == Froze(group) {
      assert FrozenFrom(writes, n, group);
    } else {
      assert i < n && ClearsAt(writes[..n], i, group);
      StandsRefrozen(writes[..n], group, i);
      var a, j :| 0 <= a < j < n && ClearsAt(writes[..n], a, group) && FrozenFrom(writes[..n], j, group);
      forall k | j < k < |writes| ensures !ClearsAt(writes, k, group) {
        assert k < n ==> !ClearsAt(writes[..n], k, group);
      }
      assert ClearsAt(writes, a, group) && FrozenFrom(writes, j, group);
    }
  }

  lemma RefrozenIff(writes: seq<Write>, group: nat)
    ensures Refrozen(writes, group) <==> Standing(writes, group) && !Untouched(writes, group)
  {
    if Refrozen(writes, group) {
      var i, j :| 0 <= i < j < |writes| && ClearsAt(writes, i, group) && FrozenFrom(writes, j, group);
      FrozenStands(writes, j, group);
    }
    if Standing(writes, group) && !Untouched(writes, group) {
      var i :| 0 <= i < |writes| && ClearsAt(writes, i, group);
      StandsRefrozen(writes, group, i);
    }
  }

  // ---------------------------------------------------------------- what every run keeps

  // While a lease is live, an owned group's bit is what the game's writes have made of it, and the
  // lease's own bits are those never cleared.
  predicate Follows(w: Watch) {
    Live(w.g.b) ==> forall x :: x in w.g.b.lease.owned ==>
      && (x in w.g.mask <==> Standing(w.writes, x))
      && (x in w.ours <==> Untouched(w.writes, x))
  }

  lemma ServiceKeepsOwned(g: Game, v: View, s: Session, now: u64, shutdown: bool)
    ensures ServiceOwner(g, v, s, now, shutdown).b.lease.owned == g.b.lease.owned
    ensures Live(ServiceOwner(g, v, s, now, shutdown).b) ==> Live(g.b)
  {
  }

  lemma OwnedKept(g: Game, e: Event)
    requires !Opens(g, e)
    ensures Step(g, e).b.lease.owned == g.b.lease.owned && (Live(Step(g, e).b) ==> Live(g.b))
  {
    match e
    case Request(owner, from, to, next, v, s, now, shutdown) =>
      ServiceKeepsOwned(Settle(g, BeforeTransition(g.b), None), v, s, now, shutdown);
    case Serve(owner, v, s, now, shutdown) =>
      ServiceKeepsOwned(g, v, s, now, shutdown);
    case AckIn(owner, a, v, s, now, shutdown) =>
      ServiceKeepsOwned(OnAck(g, a), v, s, now, shutdown);
    case _ =>
  }

  // The mask after a step that opens no lease and leaves one live.
  lemma MaskWritten(g: Game, e: Event)
    requires Invariant(g) && Samples(g, e) && !Opens(g, e) && Live(Step(g, e).b)
    ensures match e
            case Freeze(group) => Step(g, e).mask == g.mask + {group}
            case Clears(groups) => Step(g, e).mask == g.mask - groups
            case Call(_, group, _, _, _, _, _) => Step(g, e).mask == if WritesOf(g, e) == [] then g.mask else g.mask - {group}
            case _ => Step(g, e).mask == g.mask
  {
    StepOwns(g, e);
  }

  lemma OneWrite(writes: seq<Write>, x: Write, group: nat)
    ensures Standing(writes + [x], group) <==>
            !(x.Cleared? && group in x.groups) && (x == Froze(group) || Standing(writes, group))
    ensures Untouched(writes + [x], group) <==> !(x.Cleared? && group in x.groups) && Untouched(writes, group)
  {
    var more := writes + [x];
    assert more[..|writes|] == writes && more[|writes|] == x;
    if Untouched(more, group) {
      forall i | 0 <= i < |writes| ensures !ClearsAt(writes, i, group) {
        assert !ClearsAt(more, i, group);
      }
      assert !ClearsAt(more, |writes|, group);
    }
    if !(x.Cleared? && group in x.groups) && Untouched(writes, group) {
      forall i | 0 <= i < |more| ensures !ClearsAt(more, i, group) {
        assert i < |writes| ==> !ClearsAt(writes, i, group);
      }
    }
  }

  lemma OneWithout(ours: set<nat>, x: Write)
    ensures Without(ours, [x]) == if x.Cleared? then ours - x.groups else ours
  {
    assert [x][1..] == [];
  }

  lemma ServiceOpensNone(g: Game, v: View, s: Session, now: u64, shutdown: bool)
    ensures ServiceOwner(g, v, s, now, shutdown).b.incarnations == g.b.incarnations
  {
  }

  lemma OnlyCallsOpen(g: Game, e: Event)
    requires Opens(g, e)
    ensures e.Call? && e.owner
  {
    match e
    case Request(owner, from, to, next, v, s, now, shutdown) =>
      ServiceOpensNone(Settle(g, BeforeTransition(g.b), None), v, s, now, shutdown);
    case Serve(owner, v, s, now, shutdown) =>
      ServiceOpensNone(g, v, s, now, shutdown);
    case AckIn(owner, a, v, s, now, shutdown) =>
      ServiceOpensNone(OnAck(g, a), v, s, now, shutdown);
    case _ =>
  }

  lemma OpensFresh(g: Game, e: Event)
    requires Invariant(g) && Samples(g, e) && Opens(g, e)
    ensures var h := Step(g, e); h.b.lease.owned <= h.mask
  {
    OnlyCallsOpen(g, e);
    CallDefers(g, e.called, e.caller, e.v, e.s, e.now, e.challenge);
  }

  lemma ObserveFollows(w: Watch, e: Event)
    requires Invariant(w.g) && Samples(w.g, e) && Follows(w)
    ensures Follows(Observe(w, e))
  {
    var r := Observe(w, e);
    if Opens(w.g, e) {
      OpensFresh(w.g, e);
    } else if Live(r.g.b) {
      OwnedKept(w.g, e);
      MaskWritten(w.g, e);
      var more := WritesOf(w.g, e);
      forall x | x in r.g.b.lease.owned
        ensures (x in r.g.mask <==> Standing(r.writes, x)) && (x in r.ours <==> Untouched(r.writes, x))
      {
        if more == [] {
          assert w.writes + more == w.writes;
        } else {
          OneWrite(w.writes, more[0], x);
          OneWithout(w.ours, more[0]);
          assert more == [more[0]];
        }
      }
    }
  }

  lemma {:induction false} WatchedFollows(w: Watch, es: seq<Event>)
    requires Invariant(w.g) && Sampling(w.g, es) && Follows(w)
    ensures Follows(Watched(w, es)) && Invariant(Watched(w, es).g)
    ensures Watched(w, es).g == Run(w.g, es)
    decreases |es|
  {
    if es != [] {
      StepInvariant(w.g, es[0]);
      ObserveFollows(w, es[0]);
      WatchedFollows(Observe(w, es[0]), es[1..]);
    }
  }

  // ---------------------------------------------------------------- the release

  predicate Releases(g: Game, e: Event) { |Step(g, e).replays| > |g.replays| }

  lemma ReleaseIsLive(g: Game, e: Event)
    requires Releases(g, e)
    ensures Live(g.b)
  {
  }

  lemma ReleaseGroups(g: Game, e: Event)
    requires Invariant(g) && Samples(g, e) && Releases(g, e)
    ensures Step(g, e).replays[|g.replays|].groups == g.mask * HeldGroups(g.b.lease)
  {
    StepOwns(g, e);
  }

  // Over every run: a release clears an owned group whose bit is no longer the lease's own exactly
  // when, since the deferral, the game has cleared the group and frozen it again.
  lemma RefrozenGroupIsCleared(enabled: bool, mask: set<nat>, es: seq<Event>, e: Event, group: nat)
    requires Sampling(Begin(enabled, mask), es)
    requires var w := Watched(Unwatched(enabled, mask), es);
             Samples(w.g, e) && Releases(w.g, e) && group in w.g.b.lease.owned
    ensures var w := Watched(Unwatched(enabled, mask), es);
            var r := Step(w.g, e).replays[|w.g.replays|];
            && (group in r.groups && group !in w.ours <==> Refrozen(w.writes, group))
            && (group in w.ours <==> Untouched(w.writes, group))
  {
    var w := Watched(Unwatched(enabled, mask), es);
    BeginInvariant(enabled, mask);
    WatchedFollows(Unwatched(enabled, mask), es);
    ReleaseIsLive(w.g, e);
    ReleaseGroups(w.g, e);
    RefrozenIff(w.writes, group);
  }

  // ---------------------------------------------------------------- such a release

  const MANSION: Place := Place(2, 0x13, 0, 0, 134, 0)
  const A_SESSION: Session := Session(true, 1, 1, Peer(7, 1, 0), Peer(8, 1, 0), Peer(0, 0, 0), true, false)

  function Seen(eventContext: u64, mask: set<nat>): View {
    View(true, 9, 5, false, TARGET, eventContext, Unknown, 0, mask, 0xff, true)
  }

  // The intro's first call is deferred, the barrier freezes 3 and 4, and the game clears 3 and
  // freezes it again.
  function RefreezeSteps(): seq<Event> {
    [Request(true, MANSION, TARGET, 5, Seen(0, {0}), A_SESSION, 0, false), Load(true, 9, 5),
     Call(true, 0, GROUP0_CALLER, Seen(1, {0}), A_SESSION, 0, 1), Clears({3}), Freeze(3)]
  }

  function Ready(): Barrier { Start(true).(armed := Admission.Armed(true, true, 5, 9)) }

  function Holding(): Barrier {
    Start(true).(lease := NewLease(Start(true), Seen(1, {0}), A_SESSION, 0, 1).(owned := {3, 4}), incarnations := 1)
  }

  lemma ArmsRun()
    ensures var w := Observe(Observe(Unwatched(true, {0}), RefreezeSteps()[0]), RefreezeSteps()[1]);
            w == Watch(Begin(true, {0}).(b := Ready()), {}, [])
  {
  }

  lemma DefersRun()
    ensures var w := Observe(Watch(Begin(true, {0}).(b := Ready()), {}, []), RefreezeSteps()[2]);
            w.g.b == Holding() && w.g.mask == {0, 3, 4} && w.ours == {3, 4} && w.writes == [] && w.g.replays == []
  {
    assert OWNABLE - {0} == {3, 4} && {3, 4} * OWNABLE == {3, 4} && {0} + {3, 4} == {0, 3, 4};
  }

  lemma RefreezesRun(w: Watch)
    requires w.g.b == Holding() && w.g.mask == {0, 3, 4} && w.ours == {3, 4} && w.writes == [] && w.g.replays == []
    ensures var r := Observe(Observe(w, Clears({3})), Freeze(3));
            && r.g.b == Holding() && r.g.mask == {0, 3, 4} && r.ours == {4} && r.writes == [Cleared({3}), Froze(3)]
            && r.g.replays == []
  {
    OneWithout(w.ours, Cleared({3}));
    var x := Observe(w, Clears({3}));
    assert x.g.mask == {0, 4} && x.ours == {4};
    OneWithout(x.ours, Froze(3));
  }

  lemma FiveWatched(w: Watch, a: Event, b: Event, c: Event, d: Event, e: Event)
    ensures Watched(w, [a, b, c, d, e]) == Observe(Observe(Observe(Observe(Observe(w, a), b), c), d), e)
  {
    var es := [a, b, c, d, e];
    assert es[1..] == [b, c, d, e] && es[1..][1..] == [c, d, e] && [c, d, e][1..] == [d, e] && [d, e][1..] == [e] && [e][1..] == [];
    var x := Observe(Observe(Observe(w, a), b), c);
    assert Watched(x, [d, e]) == Observe(Observe(x, d), e) by {
      assert Watched(Observe(x, d), [e]) == Watched(Observe(Observe(x, d), e), []);
    }
    assert Watched(Observe(w, a), [b, c, d, e]) == Watched(Observe(Observe(w, a), b), [c, d, e]);
  }

  lemma RefreezeRun()
    ensures var w := Watched(Unwatched(true, {0}), RefreezeSteps());
            && w.g.b == Holding() && w.g.mask == {0, 3, 4} && w.ours == {4} && w.writes == [Cleared({3}), Froze(3)]
            && w.g.replays == []
  {
    var es := RefreezeSteps();
    FiveWatched(Unwatched(true, {0}), es[0], es[1], es[2], es[3], es[4]);
    ArmsRun();
    DefersRun();
    RefreezesRun(Observe(Watch(Begin(true, {0}).(b := Ready()), {}, []), es[2]));
  }

  lemma RefreezeSamples()
    ensures Sampling(Begin(true, {0}), RefreezeSteps())
  {
    var es := RefreezeSteps();
    var g := Begin(true, {0});
    var h := Step(Step(g, es[0]), es[1]);
    ArmsRun();
    assert h.mask == {0};
    assert es[1..][1..] == es[2..] && es[2..][1..] == es[3..] && es[3..][1..] == es[4..] && es[4..][1..] == [];
    var i := Step(h, es[2]);
    var j := Step(i, es[3]);
    assert Sampling(Step(j, es[4]), []);
    assert Sampling(j, es[4..]);
    assert Sampling(i, es[3..]);
    assert Sampling(h, es[2..]);
    assert Sampling(Step(g, es[0]), es[1..]);
  }

  lemma DeadlineReleases(g: Game)
    requires g.b == Holding() && g.mask == {0, 3, 4} && g.replays == []
    ensures var h := Step(g, Serve(true, Seen(0, {0, 3, 4}), A_SESSION, DEADLINE_MS, false));
            3 !in h.mask && |h.replays| == 1
  {
    var v := Seen(0, {0, 3, 4});
    assert v.mask * g.b.lease.deferred != {} by {
      assert 0 in v.mask * g.b.lease.deferred;
    }
    assert 3 in v.mask * HeldGroups(g.b.lease) - g.b.lease.released;
  }

  // The service at the deadline then clears a bit that is the game's.
  lemma RefreezeHappens()
    ensures Sampling(Begin(true, {0}), RefreezeSteps())
    ensures var w := Watched(Unwatched(true, {0}), RefreezeSteps());
            var h := Step(w.g, Serve(true, Seen(0, {0, 3, 4}), A_SESSION, DEADLINE_MS, false));
            3 in w.g.b.lease.owned && 3 !in w.ours && 3 in w.g.mask && 3 !in h.mask && |h.replays| == 1
  {
    RefreezeSamples();
    RefreezeRun();
    DeadlineReleases(Watched(Unwatched(true, {0}), RefreezeSteps()).g);
  }
}
