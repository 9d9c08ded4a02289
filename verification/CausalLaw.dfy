// The ledger's central law: while the engine has not retired, every change of an admitted enemy's HP
// that was reported is on record as a cause, and the causes of each enemy form one unbroken chain
// from the HP it was admitted at to the HP now expected. Anything else retires the engine.
module CausalLaw {
  import opened Common
  import opened CausalLedger
  import opened CausalSoundness

  // ---------------------------------------------------------------- one reported change

  predicate Tracks(s: State, i: nat, actor: nat) { i < |s.ledgers| && s.ledgers[i].identity.actor == actor }

  lemma {:induction false} FindsActor(ls: seq<Ledger>, i: nat)
    requires i < |ls|
    requires forall j, k :: 0 <= j < k < |ls| ==> ls[j].identity.actor != ls[k].identity.actor
    ensures FindActor(ls, ls[i].identity.actor) == i
    decreases |ls|
  {
    var n := |ls| - 1;
    if i < n {
      assert ls[i].identity.actor != ls[n].identity.actor;
      FindsActor(ls[..n], i);
      assert ls[..n][i] == ls[i];
    }
  }

  lemma {:induction false} FindsLive(ls: seq<Ledger>, i: nat)
    requires i < |ls| && !ls[i].removed && ls[i].identity.netId != 0
    requires forall j, k :: 0 <= j < k < |ls| ==> ls[j].identity.netId != ls[k].identity.netId
    ensures Find(ls, ls[i].identity.netId) == i
    decreases |ls|
  {
    if i > 0 {
      assert ls[0].identity.netId != ls[i].identity.netId;
      FindsLive(ls[1..], i - 1);
      assert ls[1..][i - 1] == ls[i];
    }
  }

  // The newest receipt is a qualified one of this kind, for this target and change.
  predicate Records(s: State, r: State, kind: Kind, id: nat, before: int, after: int) {
    && !r.retired && |r.log| == |s.log| + 1 && r.log[..|s.log|] == s.log
    && var q := r.log[|s.log|]; q.kind == kind && q.qualified && q.netId == id && q.before == before && q.after == after
  }

  // There is room for one more receipt.
  predicate Room(s: State) { |s.log| < LAST_SERIAL && |s.log| - s.drained < QUEUE_COUNT }

  // A change of ledger i's HP that the ledger can take as a cause.
  predicate Continues(s: State, i: nat, event: nat, before: int, after: int)
    requires i < |s.ledgers|
  {
    && event != 0 && event != s.ledgers[i].lastEvent && before == s.ledgers[i].expected && 0 <= after < before
    && |s.ledgers[i].causes| < 16
  }

  // A damaging hit on a tracked actor is recorded as a cause of its target, exactly when it is
  // supported, in scope and continues the target's HP; every other one retires the engine.
  lemma DamageIff(s: State, same: bool, h: HitFacts, i: nat)
    requires Invariant(s) && s.admitted && !s.retired && Tracks(s, i, h.actor) && h.before != h.after
    ensures var r := Step(s, EvHit(same, h));
            var l := s.ledgers[i];
            var cause := same && h.supported && !l.removed && Continues(s, i, h.event, h.before, h.after) && Room(s);
            && (Records(s, r, Hit, l.identity.netId, h.before, h.after) <==> cause)
            && (r.retired <==> !cause)
            && (cause ==> i < |r.ledgers| && r.ledgers[i].expected == h.after && r.log[|s.log|].event == h.event)
  {
    FindsActor(s.ledgers, i);
  }

  // A host write is recorded as a cause exactly when it was performed for a newer claim on a live
  // target and continues its HP; every other one retires the engine.
  lemma WriteIff(s: State, same: bool, a: ApplyFacts, i: nat)
    requires Invariant(s) && s.admitted && !s.retired && i < |s.ledgers| && !s.ledgers[i].removed
    requires a.keyId == s.ledgers[i].identity.netId
    ensures var r := Step(s, EvApply(same, a));
            var cause := same && SameTarget(s.ledgers[i].identity, a.target)
                         && a.attempted && a.returned && a.readback && a.keyed && a.sequence > s.lastClaim && a.damage > 0
                         && (a.before >= a.damage ==> a.after == a.before - a.damage) && (a.before < a.damage ==> a.after == 0)
                         && Continues(s, i, ApplyEvent(s), a.before, a.after) && Room(s);
            && (Records(s, r, HostApply, a.keyId, a.before, a.after) <==> cause)
            && (r.retired <==> !cause)
            && (cause ==> i < |r.ledgers| && r.ledgers[i].expected == a.after && r.lastClaim == a.sequence)
  {
    FindsLive(s.ledgers, i);
  }

  // A host write for no live target retires the engine.
  lemma StrayWriteRetires(s: State, same: bool, a: ApplyFacts)
    requires Invariant(s) && s.admitted && !s.retired
    requires forall i :: 0 <= i < |s.ledgers| ==> s.ledgers[i].removed || s.ledgers[i].identity.netId != a.keyId
    ensures Step(s, EvApply(same, a)).retired
  {
  }

  // A death is recorded exactly when it was sent, once, for a live target whose last cause took its
  // HP to zero; every other death publication retires the engine.
  lemma DeathIff(s: State, same: bool, i: nat, hp: int, framed: bool, sent: bool, despawn: bool)
    requires Invariant(s) && s.admitted && !s.retired && i < |s.ledgers| && !s.ledgers[i].removed
    ensures var l := s.ledgers[i];
            var r := Step(s, EvDeath(same, l.identity.netId, hp, framed, sent, despawn));
            var death := same && framed && sent && !despawn && !l.deathSent && l.expected == 0
                         && l.causeBefore > 0 && l.causeAfter == 0 && l.lastEvent != 0 && Room(s);
            && (Records(s, r, DeathPublish, l.identity.netId, l.published, hp) <==> death)
            && (r.retired <==> !death)
            && (death ==> i < |r.ledgers| && r.ledgers[i].deathSent && r.ledgers[i].dead)
  {
    FindsLive(s.ledgers, i);
  }

  lemma StrayDeathRetires(s: State, same: bool, id: nat, hp: int, framed: bool, sent: bool, despawn: bool)
    requires Invariant(s) && s.admitted && !s.retired
    requires forall i :: 0 <= i < |s.ledgers| ==> s.ledgers[i].removed || s.ledgers[i].identity.netId != id
    ensures Step(s, EvDeath(same, id, hp, framed, sent, despawn)).retired
  {
  }

  // A publication of HP is recorded exactly when its packet went out in scope and names, for this
  // target, the expected HP; it never retires the engine by itself.
  lemma PublicationIff(s: State, same: bool, p: HpFacts, i: nat)
    requires Invariant(s) && s.admitted && !s.retired && i < |s.ledgers| && !s.ledgers[i].removed
    requires p.id == s.ledgers[i].identity.netId
    ensures var r := Step(s, EvHp(same, p));
            var l := s.ledgers[i];
            var publishes := same && p.framed && p.sent && !p.despawn && p.sequence != 0 && HpWire(s.ledgers, p.id, p.hp, p.maxHp, p.rows)
                             && p.hp == l.expected && p.maxHp == l.identity.maxHp && Room(s);
            && (Records(s, r, HpPublish, p.id, l.published, p.hp) <==> publishes)
            && (r.retired <==> !same || !Room(s))
            && (publishes ==> i < |r.ledgers| && r.ledgers[i] == l.(published := p.hp, causes := []))
  {
    FindsLive(s.ledgers, i);
    if s.ledgers[i].causes == [] {
      CauseTestIsRedundant(s, i);
    }
  }

  // ---------------------------------------------------------------- the census

  // Some live ledger is this row's target, at its expected HP.
  predicate Matches(ls: seq<Ledger>, t: Target) {
    exists i :: 0 <= i < |ls| && !ls[i].removed && SameTarget(ls[i].identity, t) && t.hp == ls[i].expected
  }

  lemma MatchesIff(s: State, t: Target)
    requires Invariant(s) && !s.retired
    ensures Matches(s.ledgers, t) <==> RowKnown(s.ledgers, t)
  {
    if Matches(s.ledgers, t) {
      var i :| 0 <= i < |s.ledgers| && !s.ledgers[i].removed && SameTarget(s.ledgers[i].identity, t) && t.hp == s.ledgers[i].expected;
      assert s.ledgers[i].identity.netId == t.netId;
      FindsLive(s.ledgers, i);
    }
  }

  lemma {:induction false} FaultIff(ls: seq<Ledger>, rows: seq<Target>, i: nat)
    requires i <= |rows|
    ensures CensusFault(ls, rows, i) == None <==> forall k :: i <= k < |rows| ==> RowKnown(ls, rows[k]) && !Repeats(rows, k)
    decreases |rows| - i
  {
    if i < |rows| {
      FaultIff(ls, rows, i + 1);
    }
  }

  lemma DistinctIff(rows: seq<Target>)
    ensures (forall k :: 0 <= k < |rows| ==> !Repeats(rows, k)) <==> Apart(rows)
  {
    if forall k :: 0 <= k < |rows| ==> !Repeats(rows, k) {
      forall i, j | 0 <= i < j < |rows| ensures rows[i].netId != rows[j].netId && rows[i].actor != rows[j].actor {
        assert !Repeats(rows, j);
      }
    }
  }

  // A census is accepted, and changes nothing, exactly when it is in scope, its rows are distinct
  // live targets at their expected HP, and every other live target is a published death.
  lemma CensusIff(s: State, eligible: bool, same: bool, frame: nat, rows: seq<Target>)
    requires Invariant(s) && s.admitted && !s.retired
    ensures var r := Step(s, EvPopulation(eligible, same, frame, rows));
            && (!r.retired <==> same && |rows| <= TARGET_COUNT && Apart(rows)
                                && (forall k :: 0 <= k < |rows| ==> Matches(s.ledgers, rows[k])) && Accounted(s.ledgers, rows))
            && (!r.retired ==> r == s)
  {
    FaultIff(s.ledgers, rows, 0);
    DistinctIff(rows);
    forall k | 0 <= k < |rows| ensures Matches(s.ledgers, rows[k]) <==> RowKnown(s.ledgers, rows[k]) {
      MatchesIff(s, rows[k]);
    }
  }

  function Opened(rows: seq<Target>): seq<Ledger> { seq(|rows|, i requires 0 <= i < |rows| => NewLedger(rows[i])) }

  lemma {:induction false} AdmitOpens(s: State, rows: seq<Target>)
    requires s.drained <= |s.log| && |s.log| - s.drained + |rows| <= QUEUE_COUNT && |s.log| + |rows| <= LAST_SERIAL
    ensures var r := AdmitRows(s, rows);
            r.ledgers == s.ledgers + Opened(rows) && r.retired == s.retired && r.admitted == s.admitted
    decreases |rows|
  {
    if rows != [] {
      var r := Push(s.(ledgers := s.ledgers + [NewLedger(rows[0])]),
                    Row(Admission, Ok).(netId := rows[0].netId, after := rows[0].hp, qualified := true));
      AdmitOpens(r, rows[1..]);
      assert Opened(rows) == [NewLedger(rows[0])] + Opened(rows[1..]);
    }
  }

  // The same five living enemies in two consecutive frames of one scope admit the engine, each at
  // its own HP.
  lemma RepeatedAdmits(s: State, same: bool, frame: nat, rows: seq<Target>)
    requires Invariant(s) && !s.admitted && !s.retired && Admissible(rows) && |s.log| - s.drained <= QUEUE_COUNT - TARGET_COUNT
    requires |s.log| + TARGET_COUNT <= LAST_SERIAL
    requires !Repeated(s, same, frame, rows)
    ensures var r := Step(Step(s, EvPopulation(true, same, frame, rows)), EvPopulation(true, true, frame + 1, rows));
            r.admitted && !r.retired && r.ledgers == Opened(rows)
  {
    var t := Step(s, EvPopulation(true, same, frame, rows));
    assert t == s.(candidates := Some((frame, rows)));
    forall i | 0 <= i < |rows| ensures Listed(rows[i], rows) {
      assert SameTarget(rows[i], rows[i]);
    }
    AdmitOpens(t.(admitted := true), rows);
    assert s.ledgers == [] && [] + Opened(rows) == Opened(rows);
  }

  // ---------------------------------------------------------------- the chain of causes

  // The changes on record for a target, in order.
  function CausesOf(log: seq<Receipt>, id: nat): seq<(int, int)> {
    if log == [] then []
    else
      var r := log[|log| - 1];
      CausesOf(log[..|log| - 1], id) + (if IsCause(r, id) then [(r.before, r.after)] else [])
  }

  // The changes lead from one HP to the other without a gap, always downwards.
  predicate Chain(first: int, cs: seq<(int, int)>, last: int)
    decreases |cs|
  {
    if cs == [] then first == last
    else
      var c := cs[|cs| - 1];
      c.1 == last && 0 <= c.1 < c.0 && Chain(first, cs[..|cs| - 1], c.0)
  }

  predicate LedgerLinked(log: seq<Receipt>, l: Ledger) {
    Chain(l.identity.hp, CausesOf(log, l.identity.netId), l.expected)
  }

  ghost predicate Linked(s: State) {
    && (forall i :: 0 <= i < |s.ledgers| ==> LedgerLinked(s.log, s.ledgers[i]))
    && forall id: nat :: !Known(s.ledgers, id) ==> CausesOf(s.log, id) == []
  }

  lemma OneMore(log: seq<Receipt>, r: Receipt, id: nat)
    ensures CausesOf(log + [r], id) == CausesOf(log, id) + (if IsCause(r, id) then [(r.before, r.after)] else [])
  {
    Appended(log, r);
  }

  lemma ChainGrows(first: int, cs: seq<(int, int)>, before: int, after: int)
    requires Chain(first, cs, before) && 0 <= after < before
    ensures Chain(first, cs + [(before, after)], after)
  {
    assert (cs + [(before, after)])[..|cs|] == cs;
  }

  // No ledger's identity or HP moved, and no cause came on record.
  predicate HpStays(s: State, r: State) {
    && |r.ledgers| == |s.ledgers|
    && (forall i :: 0 <= i < |s.ledgers| ==>
          r.ledgers[i].identity == s.ledgers[i].identity && r.ledgers[i].expected == s.ledgers[i].expected)
    && (r.log == s.log
        || (|r.log| == |s.log| + 1 && r.log[..|s.log|] == s.log
            && !IsCause(r.log[|s.log|], r.log[|s.log|].netId)))
  }

  lemma StaysRecorded(s: State, r: State, id: nat)
    requires HpStays(s, r)
    ensures CausesOf(r.log, id) == CausesOf(s.log, id)
  {
    if r.log != s.log {
      assert r.log == s.log + [r.log[|s.log|]];
      OneMore(s.log, r.log[|s.log|], id);
    }
  }

  lemma StaysKnown(s: State, r: State, id: nat)
    requires HpStays(s, r)
    ensures Known(r.ledgers, id) <==> Known(s.ledgers, id)
  {
    if Known(s.ledgers, id) {
      var i :| 0 <= i < |s.ledgers| && s.ledgers[i].identity.netId == id;
      assert r.ledgers[i].identity.netId == id;
    }
    if Known(r.ledgers, id) {
      var i :| 0 <= i < |r.ledgers| && r.ledgers[i].identity.netId == id;
      assert s.ledgers[i].identity.netId == id;
    }
  }

  lemma StaysLinked(s: State, r: State)
    requires Linked(s) && HpStays(s, r)
    ensures Linked(r)
  {
    forall i | 0 <= i < |r.ledgers| ensures LedgerLinked(r.log, r.ledgers[i]) {
      StaysRecorded(s, r, r.ledgers[i].identity.netId);
      assert LedgerLinked(s.log, s.ledgers[i]);
    }
    forall id: nat | !Known(r.ledgers, id) ensures CausesOf(r.log, id) == [] {
      StaysKnown(s, r, id);
      StaysRecorded(s, r, id);
    }
  }

  // Ledger i took the change as a cause.
  predicate Took(s: State, r: State, i: nat, before: int, after: int) {
    && i < |s.ledgers| == |r.ledgers| && 0 <= after < before == s.ledgers[i].expected
    && (forall k :: 0 <= k < |s.ledgers| ==> r.ledgers[k].identity == s.ledgers[k].identity)
    && (forall k :: 0 <= k < |s.ledgers| && k != i ==> r.ledgers[k].expected == s.ledgers[k].expected)
    && r.ledgers[i].expected == after
    && |r.log| == |s.log| + 1 && r.log[..|s.log|] == s.log
    && var q := r.log[|s.log|];
    && (q.kind == Hit || q.kind == HostApply) && q.qualified && q.netId == s.ledgers[i].identity.netId
    && q.before == before && q.after == after
  }

  lemma TookRecorded(s: State, r: State, i: nat, before: int, after: int, id: nat)
    requires Took(s, r, i, before, after)
    ensures CausesOf(r.log, id) == CausesOf(s.log, id) + (if id == s.ledgers[i].identity.netId then [(before, after)] else [])
  {
    assert r.log == s.log + [r.log[|s.log|]];
    OneMore(s.log, r.log[|s.log|], id);
  }

  lemma TookLinked(s: State, r: State, i: nat, before: int, after: int)
    requires Invariant(s) && !s.retired && Linked(s) && Took(s, r, i, before, after)
    ensures Linked(r)
  {
    forall k | 0 <= k < |r.ledgers| ensures LedgerLinked(r.log, r.ledgers[k]) {
      var id := s.ledgers[k].identity.netId;
      TookRecorded(s, r, i, before, after, id);
      assert LedgerLinked(s.log, s.ledgers[k]);
      if k == i {
        ChainGrows(s.ledgers[i].identity.hp, CausesOf(s.log, id), before, after);
        assert r.ledgers[k].identity == s.ledgers[k].identity && r.ledgers[k].expected == after;
        assert CausesOf(r.log, id) == CausesOf(s.log, id) + [(before, after)];
      } else {
        assert id != s.ledgers[i].identity.netId by {
          if k < i { assert s.ledgers[k].identity.netId != s.ledgers[i].identity.netId; }
          else { assert s.ledgers[i].identity.netId != s.ledgers[k].identity.netId; }
        }
        assert CausesOf(s.log, id) + [] == CausesOf(s.log, id);
        assert r.ledgers[k].identity == s.ledgers[k].identity && r.ledgers[k].expected == s.ledgers[k].expected;
      }
    }
    forall id: nat | !Known(r.ledgers, id) ensures CausesOf(r.log, id) == [] {
      assert r.ledgers[i].identity.netId != id;
      TookRecorded(s, r, i, before, after, id);
    }
  }

  // A target is opened at its own HP, with a receipt that is no cause.
  lemma OpenedLinked(s: State, r: State, l: Ledger)
    requires Linked(s) && !Known(s.ledgers, l.identity.netId) && l.expected == l.identity.hp
    requires r.ledgers == s.ledgers + [l] && |r.log| == |s.log| + 1 && r.log[..|s.log|] == s.log
    requires !IsCause(r.log[|s.log|], r.log[|s.log|].netId)
    ensures Linked(r) && forall id: nat :: CausesOf(r.log, id) == CausesOf(s.log, id)
  {
    assert r.log == s.log + [r.log[|s.log|]];
    forall id: nat ensures CausesOf(r.log, id) == CausesOf(s.log, id) {
      OneMore(s.log, r.log[|s.log|], id);
    }
    forall i | 0 <= i < |r.ledgers| ensures LedgerLinked(r.log, r.ledgers[i]) {
      if i < |s.ledgers| {
        assert LedgerLinked(s.log, s.ledgers[i]);
      }
    }
    forall id: nat | !Known(r.ledgers, id) ensures CausesOf(r.log, id) == [] {
      KnownGrows(s.ledgers, l, id);
    }
  }

  // ---------------------------------------------------------------- every step

  // The change of HP an event reports, for the target it strikes.
  function Reports(s: State, e: Event): Option<(nat, int, int)> {
    match e
    case EvHit(_, h) =>
      var i := FindActor(s.ledgers, h.actor);
      if s.admitted && i < |s.ledgers| && h.before != h.after then Some((s.ledgers[i].identity.netId, h.before, h.after)) else None
    case EvApply(_, a) => if s.admitted then Some((a.keyId, a.before, a.after)) else None
    case _ => None
  }

  function ReportedBy(s: State, e: Event, id: nat): seq<(int, int)> {
    match Reports(s, e)
    case Some(c) => if c.0 == id then [(c.1, c.2)] else []
    case None => []
  }

  // The step records, for every target, just what its event reports.
  ghost predicate Accounts(s: State, e: Event, r: State) {
    Linked(r) && forall id: nat :: CausesOf(r.log, id) == CausesOf(s.log, id) + ReportedBy(s, e, id)
  }

  lemma StaysAccounts(s: State, e: Event, r: State)
    requires Linked(s) && HpStays(s, r) && Reports(s, e) == None
    ensures Accounts(s, e, r)
  {
    StaysLinked(s, r);
    forall id: nat ensures CausesOf(r.log, id) == CausesOf(s.log, id) + ReportedBy(s, e, id) {
      StaysRecorded(s, r, id);
      assert CausesOf(s.log, id) + [] == CausesOf(s.log, id);
    }
  }

  lemma TookAccounts(s: State, e: Event, r: State, i: nat, before: int, after: int)
    requires Invariant(s) && !s.retired && Linked(s) && Took(s, r, i, before, after)
    requires Reports(s, e) == Some((s.ledgers[i].identity.netId, before, after))
    ensures Accounts(s, e, r)
  {
    TookLinked(s, r, i, before, after);
    forall id: nat ensures CausesOf(r.log, id) == CausesOf(s.log, id) + ReportedBy(s, e, id) {
      TookRecorded(s, r, i, before, after, id);
    }
  }

  lemma HitAccounts(s: State, same: bool, h: HitFacts)
    requires Invariant(s) && Linked(s) && !s.retired && !Step(s, EvHit(same, h)).retired
    ensures Accounts(s, EvHit(same, h), Step(s, EvHit(same, h)))
  {
    var r := Step(s, EvHit(same, h));
    if s.admitted && HitQualifies(s, same, h) {
      TookAccounts(s, EvHit(same, h), r, FindActor(s.ledgers, h.actor), h.before, h.after);
    } else {
      StaysAccounts(s, EvHit(same, h), r);
    }
  }

  lemma WriteAccounts(s: State, same: bool, a: ApplyFacts)
    requires Invariant(s) && Linked(s) && !s.retired && !Step(s, EvApply(same, a)).retired
    ensures Accounts(s, EvApply(same, a), Step(s, EvApply(same, a)))
  {
    var r := Step(s, EvApply(same, a));
    if s.admitted {
      assert ApplyQualifies(s, same, a);
      TookAccounts(s, EvApply(same, a), r, Find(s.ledgers, a.keyId), a.before, a.after);
    } else {
      StaysAccounts(s, EvApply(same, a), r);
    }
  }

  lemma PublishAccounts(s: State, same: bool, p: HpFacts)
    requires Invariant(s) && Linked(s) && !s.retired && !Step(s, EvHp(same, p)).retired
    ensures Accounts(s, EvHp(same, p), Step(s, EvHp(same, p)))
  {
    StaysAccounts(s, EvHp(same, p), Step(s, EvHp(same, p)));
  }

  lemma DeathAccounts(s: State, e: Event)
    requires Invariant(s) && Linked(s) && !s.retired && !Step(s, e).retired && e.EvDeath?
    ensures Accounts(s, e, Step(s, e))
  {
    assert HpStays(s, Step(s, e));
    StaysAccounts(s, e, Step(s, e));
  }

  lemma LeaveAccounts(s: State, e: Event)
    requires Invariant(s) && Linked(s) && !s.retired && !Step(s, e).retired && e.EvLeave?
    ensures Accounts(s, e, Step(s, e))
  {
    assert HpStays(s, Step(s, e));
    StaysAccounts(s, e, Step(s, e));
  }

  // A birth either binds a ledger or opens one.
  lemma BirthBindsOrOpens(s: State, e: Event)
    requires Invariant(s) && !s.retired && !Step(s, e).retired && e.EvBirth?
    ensures var r := Step(s, e);
            || HpStays(s, r)
            || (!Known(s.ledgers, e.target.netId) && r.ledgers == s.ledgers + [NewLedger(e.target).(birth := e.birth)]
                && |r.log| == |s.log| + 1 && r.log[..|s.log|] == s.log && r.log[|s.log|].kind == Birth)
  {
  }

  lemma BirthAccounts(s: State, e: Event)
    requires Invariant(s) && Linked(s) && !s.retired && !Step(s, e).retired && e.EvBirth?
    ensures Accounts(s, e, Step(s, e))
  {
    var r := Step(s, e);
    BirthBindsOrOpens(s, e);
    if HpStays(s, r) {
      StaysAccounts(s, e, r);
    } else {
      OpenedLinked(s, r, NewLedger(e.target).(birth := e.birth));
      assert forall id: nat :: CausesOf(s.log, id) + [] == CausesOf(s.log, id);
    }
  }

  lemma {:induction false} AdmitLinked(s: State, rows: seq<Target>)
    requires s.drained <= |s.log| && Linked(s) && Apart(rows) && !AdmitRows(s, rows).retired
    requires forall j :: 0 <= j < |rows| ==> !Known(s.ledgers, rows[j].netId)
    ensures Linked(AdmitRows(s, rows)) && forall id: nat :: CausesOf(AdmitRows(s, rows).log, id) == CausesOf(s.log, id)
    decreases |rows|
  {
    if rows != [] {
      var l := NewLedger(rows[0]);
      var t := s.(ledgers := s.ledgers + [l]);
      var r := Push(t, Row(Admission, Ok).(netId := rows[0].netId, after := rows[0].hp, qualified := true));
      StillRetired(r, rows[1..]);
      OpenedLinked(s, r, l);
      forall j | 0 <= j < |rows[1..]| ensures !Known(r.ledgers, rows[1..][j].netId) {
        assert rows[1..][j] == rows[j + 1] && rows[0].netId != rows[j + 1].netId && !Known(s.ledgers, rows[j + 1].netId);
      }
      AdmitLinked(r, rows[1..]);
    }
  }

  lemma {:induction false} StillRetired(s: State, rows: seq<Target>)
    requires s.drained <= |s.log|
    ensures s.retired ==> AdmitRows(s, rows).retired
    decreases |rows|
  {
    if rows != [] {
      StillRetired(Push(s.(ledgers := s.ledgers + [NewLedger(rows[0])]),
                        Row(Admission, Ok).(netId := rows[0].netId, after := rows[0].hp, qualified := true)), rows[1..]);
    }
  }

  lemma PopulationAccounts(s: State, e: Event)
    requires Invariant(s) && Linked(s) && !s.retired && !Step(s, e).retired && e.EvPopulation?
    ensures Accounts(s, e, Step(s, e))
  {
    var r := Step(s, e);
    if !s.admitted && e.eligible && Admissible(e.rows) && Repeated(s, e.same, e.frame, e.rows) {
      var t := s.(admitted := true);
      assert r == AdmitRows(t, e.rows);
      assert Linked(t);
      AdmitLinked(t, e.rows);
      assert forall id: nat :: CausesOf(s.log, id) + [] == CausesOf(s.log, id);
    } else {
      StaysAccounts(s, e, r);
    }
  }

  lemma StepAccounts(s: State, e: Event)
    requires Invariant(s) && Linked(s) && !s.retired && !Step(s, e).retired
    ensures Accounts(s, e, Step(s, e))
  {
    match e
    case EvPopulation(_, _, _, _) => PopulationAccounts(s, e);
    case EvHit(same, h) => HitAccounts(s, same, h);
    case EvApply(same, a) => WriteAccounts(s, same, a);
    case EvHp(same, p) => PublishAccounts(s, same, p);
    case EvDeath(_, _, _, _, _, _) => DeathAccounts(s, e);
    case EvLeave(_, _, _, _, _, _) => LeaveAccounts(s, e);
    case EvBirth(_, _, _, _, _) => BirthAccounts(s, e);
    case EvOther(_, _) => StaysAccounts(s, e, Step(s, e));
    case EvPop => StaysAccounts(s, e, Step(s, e));
    case EvRetire(_) =>
  }

  // ---------------------------------------------------------------- every run

  function Reported(s: State, es: seq<Event>, id: nat): seq<(int, int)>
    requires s.drained <= |s.log|
    decreases |es|
  {
    if es == [] then [] else ReportedBy(s, es[0], id) + Reported(Step(s, es[0]), es[1..], id)
  }

  lemma {:induction false} StaysRetired(s: State, es: seq<Event>)
    requires s.drained <= |s.log|
    ensures s.retired ==> Run(s, es).retired
    decreases |es|
  {
    if es != [] {
      RetiredStep(s, es[0]);
      StaysRetired(Step(s, es[0]), es[1..]);
    }
  }

  lemma RetiredStep(s: State, e: Event)
    requires s.drained <= |s.log|
    ensures s.retired ==> Step(s, e).retired
  {
  }

  lemma FirstAccounts(s: State, e: Event, id: nat)
    requires Invariant(s) && Linked(s) && !s.retired && !Step(s, e).retired
    ensures Invariant(Step(s, e)) && Linked(Step(s, e))
    ensures CausesOf(Step(s, e).log, id) == CausesOf(s.log, id) + ReportedBy(s, e, id)
  {
    StepKeeps(s, e);
    StepAccounts(s, e);
  }

  lemma Joined(a: seq<(int, int)>, b: seq<(int, int)>, c: seq<(int, int)>)
    ensures (a + b) + c == a + (b + c)
  {
  }

  lemma {:induction false} RunAccounts(s: State, es: seq<Event>, id: nat)
    requires Invariant(s) && Linked(s) && !s.retired && !Run(s, es).retired
    ensures Linked(Run(s, es))
    ensures CausesOf(Run(s, es).log, id) == CausesOf(s.log, id) + Reported(s, es, id)
    decreases |es|
  {
    if es == [] {
      assert CausesOf(s.log, id) + [] == CausesOf(s.log, id);
    } else {
      var t := Step(s, es[0]);
      StaysRetired(t, es[1..]);
      FirstAccounts(s, es[0], id);
      RunAccounts(t, es[1..], id);
      Joined(CausesOf(s.log, id), ReportedBy(s, es[0], id), Reported(t, es[1..], id));
    }
  }

  // Over every run that has not retired: the changes reported of an enemy are exactly its causes on
  // record, in order, and they lead without a gap from the HP it was admitted at to the HP expected.
  lemma ChangesAreExplained(es: seq<Event>, i: nat)
    requires var s := Run(Initial(), es); !s.retired && i < |s.ledgers|
    ensures var s := Run(Initial(), es);
            var l := s.ledgers[i];
            var reported := Reported(Initial(), es, l.identity.netId);
            CausesOf(s.log, l.identity.netId) == reported && Chain(l.identity.hp, reported, l.expected)
  {
    InitialHolds();
    var s := Run(Initial(), es);
    var id := s.ledgers[i].identity.netId;
    RunAccounts(Initial(), es, id);
    assert LedgerLinked(s.log, s.ledgers[i]);
    assert CausesOf(s.log, id) == [] + Reported(Initial(), es, id) == Reported(Initial(), es, id);
  }
}
