// Over every run of the ledger: each HP publication on record is exactly explained by the causes it
// lists, a death is published once and only after a cause that reached zero, and no receipt goes
// missing unnoticed.
module CausalSoundness {
  import opened Common
  import opened CausalLedger

  // ---------------------------------------------------------------- what the record says

  predicate IsCause(r: Receipt, id: nat) { (r.kind == Hit || r.kind == HostApply) && r.qualified && r.netId == id }
  predicate IsPublication(r: Receipt, id: nat) { r.kind == HpPublish && r.qualified && r.netId == id }
  predicate IsDeath(r: Receipt, id: nat) { r.kind == DeathPublish && r.qualified && r.netId == id }

  // HP lost to the causes recorded since the target's last publication.
  function Losses(log: seq<Receipt>, id: nat): int {
    if log == [] then 0
    else
      var r := log[|log| - 1];
      if IsPublication(r, id) then 0
      else Losses(log[..|log| - 1], id) + (if IsCause(r, id) then r.before - r.after else 0)
  }

  // Those causes' events, in order.
  function Events(log: seq<Receipt>, id: nat): seq<nat> {
    if log == [] then []
    else
      var r := log[|log| - 1];
      if IsPublication(r, id) then []
      else Events(log[..|log| - 1], id) + (if IsCause(r, id) then [r.event] else [])
  }

  function Deaths(log: seq<Receipt>, id: nat): nat {
    if log == [] then 0
    else Deaths(log[..|log| - 1], id) + (if IsDeath(log[|log| - 1], id) then 1 else 0)
  }

  // Some cause on record brought the target to zero.
  predicate Killed(log: seq<Receipt>, id: nat) {
    exists j :: 0 <= j < |log| && IsCause(log[j], id) && log[j].after == 0
  }

  predicate Explained(log: seq<Receipt>, i: nat)
    requires i < |log|
  {
    IsPublication(log[i], log[i].netId) ==>
    && log[i].before - log[i].after == Losses(log[..i], log[i].netId)
    && log[i].causes == Events(log[..i], log[i].netId) && |log[i].causes| <= CAUSE_COUNT
  }

  ghost predicate LogSound(log: seq<Receipt>) {
    && (forall i :: 0 <= i < |log| ==> log[i].serial == i + 1)
    && (forall i :: 0 <= i < |log| ==> Explained(log, i))
    && (forall i :: 0 <= i < |log| ==> IsDeath(log[i], log[i].netId) ==> Killed(log[..i], log[i].netId))
    && forall id: nat :: Deaths(log, id) <= 1
  }

  // ---------------------------------------------------------------- what the ledgers say

  predicate LedgerSound(log: seq<Receipt>, l: Ledger) {
    && l.identity.netId != 0 && l.identity.actor != 0
    && l.published - l.expected == Losses(log, l.identity.netId)
    && l.causes == Events(log, l.identity.netId) && |l.causes| <= CAUSE_COUNT
    && Deaths(log, l.identity.netId) == (if l.deathSent then 1 else 0)
    && (l.lastEvent != 0 && l.causeAfter == 0 ==> Killed(log, l.identity.netId))
  }

  // Nothing on record counts for this id.
  predicate Untouched(log: seq<Receipt>, id: nat) {
    Losses(log, id) == 0 && Events(log, id) == [] && Deaths(log, id) == 0
  }

  predicate Known(ls: seq<Ledger>, id: nat) { exists i :: 0 <= i < |ls| && ls[i].identity.netId == id }

  ghost predicate LedgersSound(log: seq<Receipt>, ls: seq<Ledger>) {
    && (forall i :: 0 <= i < |ls| ==> LedgerSound(log, ls[i]))
    && (forall i, j :: 0 <= i < j < |ls| ==>
          ls[i].identity.netId != ls[j].identity.netId && ls[i].identity.actor != ls[j].identity.actor)
    && forall id: nat :: !Known(ls, id) ==> Untouched(log, id)
  }

  predicate Counted(s: State) {
    && s.drained <= |s.log| <= LAST_SERIAL && |s.log| - s.drained <= QUEUE_COUNT
    && s.started == |s.log| + s.dropped && (s.dropped > 0 ==> s.retired)
    && (!s.admitted ==> s.ledgers == [])
  }

  ghost predicate Invariant(s: State) {
    Counted(s) && LogSound(s.log) && (!s.retired ==> LedgersSound(s.log, s.ledgers))
  }

  // ---------------------------------------------------------------- one more receipt

  predicate Neutral(r: Receipt) {
    !r.qualified || (r.kind != Hit && r.kind != HostApply && r.kind != HpPublish && r.kind != DeathPublish)
  }

  lemma Appended(log: seq<Receipt>, r: Receipt)
    ensures (log + [r])[..|log|] == log && (log + [r])[|log|] == r
  {
  }

  lemma KilledStays(log: seq<Receipt>, r: Receipt, id: nat)
    ensures Killed(log, id) ==> Killed(log + [r], id)
    ensures IsCause(r, id) && r.after == 0 ==> Killed(log + [r], id)
  {
    if Killed(log, id) {
      var j :| 0 <= j < |log| && IsCause(log[j], id) && log[j].after == 0;
      assert (log + [r])[j] == log[j];
    }
    assert (log + [r])[|log|] == r;
  }

  // What the new receipt must itself satisfy.
  predicate Fits(log: seq<Receipt>, r: Receipt) {
    && r.serial == |log| + 1
    && (IsPublication(r, r.netId) ==>
          r.before - r.after == Losses(log, r.netId) && r.causes == Events(log, r.netId) && |r.causes| <= CAUSE_COUNT)
    && (IsDeath(r, r.netId) ==> Killed(log, r.netId) && Deaths(log, r.netId) == 0)
  }

  lemma LogGrows(log: seq<Receipt>, r: Receipt)
    requires LogSound(log) && Fits(log, r)
    ensures LogSound(log + [r])
  {
    var more := log + [r];
    Appended(log, r);
    forall i | 0 <= i < |more|
      ensures more[i].serial == i + 1 && Explained(more, i)
      ensures IsDeath(more[i], more[i].netId) ==> Killed(more[..i], more[i].netId)
    {
      if i < |log| {
        assert more[i] == log[i] && more[..i] == log[..i];
        assert Explained(log, i);
      }
    }
    forall id: nat ensures Deaths(more, id) <= 1 {
      assert Deaths(more, id) == Deaths(log, id) + (if IsDeath(r, id) then 1 else 0);
    }
  }

  lemma NeutralCounts(log: seq<Receipt>, r: Receipt, id: nat)
    requires Neutral(r) || r.netId != id
    ensures Losses(log + [r], id) == Losses(log, id) && Events(log + [r], id) == Events(log, id)
    ensures Deaths(log + [r], id) == Deaths(log, id)
  {
    Appended(log, r);
  }

  lemma LedgerStays(log: seq<Receipt>, r: Receipt, l: Ledger)
    requires LedgerSound(log, l) && (Neutral(r) || r.netId != l.identity.netId)
    ensures LedgerSound(log + [r], l)
  {
    NeutralCounts(log, r, l.identity.netId);
    KilledStays(log, r, l.identity.netId);
  }

  lemma LedgersStay(log: seq<Receipt>, r: Receipt, ls: seq<Ledger>)
    requires LedgersSound(log, ls) && Neutral(r)
    ensures LedgersSound(log + [r], ls)
  {
    forall i | 0 <= i < |ls| ensures LedgerSound(log + [r], ls[i]) {
      LedgerStays(log, r, ls[i]);
    }
    forall id: nat | !Known(ls, id) ensures Untouched(log + [r], id) {
      NeutralCounts(log, r, id);
    }
  }

  lemma KnownStays(ls: seq<Ledger>, i: nat, l: Ledger, id: nat)
    requires i < |ls| && l.identity == ls[i].identity
    ensures Known(ls, id) ==> Known(ls[i := l], id)
  {
    if Known(ls, id) {
      var k :| 0 <= k < |ls| && ls[k].identity.netId == id;
      assert ls[i := l][k].identity.netId == id;
    }
  }

  lemma KnownGrows(ls: seq<Ledger>, l: Ledger, id: nat)
    ensures Known(ls, id) ==> Known(ls + [l], id)
  {
    if Known(ls, id) {
      var k :| 0 <= k < |ls| && ls[k].identity.netId == id;
      assert (ls + [l])[k].identity.netId == id;
    }
  }

  // A receipt about ledger i, whose new state agrees with it.
  lemma LedgerMoves(log: seq<Receipt>, r: Receipt, ls: seq<Ledger>, i: nat, l: Ledger)
    requires LedgersSound(log, ls) && i < |ls| && l.identity == ls[i].identity && r.netId == l.identity.netId
    requires LedgerSound(log + [r], l)
    ensures LedgersSound(log + [r], ls[i := l])
  {
    var next := ls[i := l];
    forall k | 0 <= k < |next| ensures LedgerSound(log + [r], next[k]) {
      if k != i {
        assert next[k].identity.netId != l.identity.netId by {
          if k < i { assert ls[k].identity.netId != ls[i].identity.netId; } else { assert ls[i].identity.netId != ls[k].identity.netId; }
        }
        LedgerStays(log, r, ls[k]);
      }
    }
    forall id: nat | !Known(next, id) ensures Untouched(log + [r], id) {
      KnownStays(ls, i, l, id);
      assert next[i].identity.netId == r.netId;
      NeutralCounts(log, r, id);
    }
  }

  // ---------------------------------------------------------------- pushing

  lemma PushKeeps(s: State, r: Receipt)
    requires Counted(s) && LogSound(s.log) && Fits(s.log, r.(serial := |s.log| + 1))
    requires !s.retired ==> LedgersSound(s.log + [r.(serial := |s.log| + 1)], s.ledgers)
    ensures Invariant(Push(s, r))
  {
    LogGrows(s.log, r.(serial := |s.log| + 1));
  }

  lemma PushNeutral(s: State, r: Receipt)
    requires Invariant(s) && Neutral(r)
    ensures Invariant(Push(s, r)) && Push(s, r).ledgers == s.ledgers && Push(s, r).admitted == s.admitted
    ensures s.retired ==> Push(s, r).retired
  {
    if !s.retired {
      LedgersStay(s.log, r.(serial := |s.log| + 1), s.ledgers);
    }
    PushKeeps(s, r);
  }

  lemma RetireKeeps(s: State, why: Reason)
    requires Invariant(s)
    ensures Invariant(Retire(s, why)) && Retire(s, why).retired
  {
    if !s.retired {
      PushKeeps(s.(retired := true), Row(Retired, why));
    }
  }

  lemma CurrentKeeps(s: State, same: bool)
    requires Invariant(s)
    ensures Invariant(Current(s, same))
  {
    RetireKeeps(s, Scope);
  }

  // ---------------------------------------------------------------- each operation

  lemma CauseLedger(log: seq<Receipt>, r: Receipt, l: Ledger)
    requires LedgerSound(log, l) && IsCause(r, l.identity.netId) && Explains(l, r.event, r.before, r.after)
    ensures LedgerSound(log + [r], Cause(l, r.event, r.before, r.after))
  {
    Appended(log, r);
    KilledStays(log, r, l.identity.netId);
  }

  lemma CauseKeeps(s: State, i: nat, r: Receipt)
    requires Invariant(s) && !s.retired && i < |s.ledgers| && IsCause(r, s.ledgers[i].identity.netId)
    requires Explains(s.ledgers[i], r.event, r.before, r.after)
    ensures Invariant(Push(SetLedger(s, i, Cause(s.ledgers[i], r.event, r.before, r.after)), r))
  {
    var c := Cause(s.ledgers[i], r.event, r.before, r.after);
    var q := r.(serial := |s.log| + 1);
    CauseLedger(s.log, q, s.ledgers[i]);
    LedgerMoves(s.log, q, s.ledgers, i, c);
    PushKeeps(SetLedger(s, i, c), r);
  }

  lemma HitKeeps(s: State, same: bool, h: HitFacts)
    requires Invariant(s)
    ensures Invariant(OnHit(s, same, h))
  {
    if s.admitted && !s.retired {
      if HitQualifies(s, same, h) {
        CauseKeeps(s, FindActor(s.ledgers, h.actor), HitReceipt(s, h, true));
      } else {
        CurrentKeeps(s, same);
        PushNeutral(Current(s, same), HitReceipt(s, h, false));
        RetireKeeps(Push(Current(s, same), HitReceipt(s, h, false)), UnknownDelta);
      }
    }
  }

  lemma ApplyKeeps(s: State, same: bool, a: ApplyFacts)
    requires Invariant(s)
    ensures Invariant(OnHostApply(s, same, a))
  {
    if s.admitted && !s.retired {
      if ApplyQualifies(s, same, a) {
        var t := s.(lastClaim := a.sequence);
        CauseKeeps(t, Find(s.ledgers, a.keyId), ApplyReceipt(s, a, true));
      } else {
        CurrentKeeps(s, same);
        PushNeutral(Current(s, same), ApplyReceipt(s, a, false));
        RetireKeeps(Push(Current(s, same), ApplyReceipt(s, a, false)), Native);
      }
    }
  }

  lemma HpKeeps(s: State, same: bool, p: HpFacts)
    requires Invariant(s)
    ensures Invariant(OnHpPublish(s, same, p))
  {
    if s.admitted && !s.retired {
      if PublishQualifies(s, same, p) {
        var i := Find(s.ledgers, p.id);
        var r := PublishReceipt(s, HpPublish, p.id, p.hp, true).(serial := |s.log| + 1);
        var l := s.ledgers[i].(published := p.hp, causes := []);
        Appended(s.log, r);
        KilledStays(s.log, r, p.id);
        LedgerMoves(s.log, r, s.ledgers, i, l);
        PushKeeps(SetLedger(s, i, l), PublishReceipt(s, HpPublish, p.id, p.hp, true));
      } else {
        CurrentKeeps(s, same);
        PushNeutral(Current(s, same), PublishReceipt(s, HpPublish, p.id, p.hp, false));
      }
    }
  }

  lemma DeathKeeps(s: State, same: bool, id: nat, hp: int, framed: bool, sent: bool, despawn: bool)
    requires Invariant(s)
    ensures Invariant(OnDeathPublish(s, same, id, hp, framed, sent, despawn))
  {
    if s.admitted && !s.retired {
      if DeathQualifies(s, same, id, framed, sent, despawn) {
        var i := Find(s.ledgers, id);
        var r := PublishReceipt(s, DeathPublish, id, hp, true).(serial := |s.log| + 1);
        var l := s.ledgers[i].(deathSent := true, dead := true);
        Appended(s.log, r);
        KilledStays(s.log, r, id);
        LedgerMoves(s.log, r, s.ledgers, i, l);
        PushKeeps(SetLedger(s, i, l), PublishReceipt(s, DeathPublish, id, hp, true));
      } else {
        CurrentKeeps(s, same);
        PushNeutral(Current(s, same), PublishReceipt(s, DeathPublish, id, hp, false));
        RetireKeeps(Push(Current(s, same), PublishReceipt(s, DeathPublish, id, hp, false)), UnknownDelta);
      }
    }
  }

  // A new target, with its neutral receipt.
  lemma OpenKeeps(s: State, l: Ledger, r: Receipt)
    requires Invariant(s) && s.admitted && Neutral(r)
    requires l.identity.netId != 0 && l.identity.actor != 0 && l.published == l.expected && l.causes == []
    requires !l.deathSent && l.lastEvent == 0
    requires !s.retired ==> forall i :: 0 <= i < |s.ledgers| ==>
               s.ledgers[i].identity.netId != l.identity.netId && s.ledgers[i].identity.actor != l.identity.actor
    ensures Invariant(Push(s.(ledgers := s.ledgers + [l]), r))
    ensures Push(s.(ledgers := s.ledgers + [l]), r).ledgers == s.ledgers + [l]
    ensures s.retired ==> Push(s.(ledgers := s.ledgers + [l]), r).retired
  {
    if !s.retired {
      var q := r.(serial := |s.log| + 1);
      var more := s.ledgers + [l];
      LedgersStay(s.log, q, s.ledgers);
      assert !Known(s.ledgers, l.identity.netId);
      assert Untouched(s.log + [q], l.identity.netId);
      forall id: nat | !Known(more, id) ensures Untouched(s.log + [q], id) {
        assert more[|s.ledgers|].identity.netId == l.identity.netId;
        KnownGrows(s.ledgers, l, id);
      }
      assert LedgersSound(s.log + [q], more);
    }
    PushKeeps(s.(ledgers := s.ledgers + [l]), r);
  }

  lemma {:induction false} AdmitKeeps(s: State, rows: seq<Target>)
    requires Invariant(s) && s.admitted && Apart(rows)
    requires forall i :: 0 <= i < |rows| ==> rows[i].netId != 0 && rows[i].actor != 0
    requires forall i, j :: 0 <= i < |s.ledgers| && 0 <= j < |rows| ==>
               s.ledgers[i].identity.netId != rows[j].netId && s.ledgers[i].identity.actor != rows[j].actor
    ensures Invariant(AdmitRows(s, rows))
    decreases |rows|
  {
    if rows != [] {
      var r := Row(Admission, Ok).(netId := rows[0].netId, after := rows[0].hp, qualified := true);
      OpenKeeps(s, NewLedger(rows[0]), r);
      AdmitKeeps(Push(s.(ledgers := s.ledgers + [NewLedger(rows[0])]), r), rows[1..]);
    }
  }

  lemma CensusKeeps(s: State, rows: seq<Target>)
    requires Invariant(s)
    ensures Invariant(Census(s, rows))
  {
    RetireKeeps(s, Mapping);
    RetireKeeps(s, UnknownDelta);
  }

  lemma PopulationKeeps(s: State, eligible: bool, same: bool, frame: nat, rows: seq<Target>)
    requires Invariant(s)
    ensures Invariant(Population(s, eligible, same, frame, rows))
  {
    if !s.retired {
      if !s.admitted {
        if eligible && Admissible(rows) && Repeated(s, same, frame, rows) {
          assert Invariant(s.(admitted := true));
          AdmitKeeps(s.(admitted := true), rows);
        }
      } else {
        RetireKeeps(s, Scope);
        CensusKeeps(s, rows);
      }
    }
  }

  // A change of fields the record does not speak about.
  lemma FieldKeeps(s: State, i: nat, l: Ledger, r: Receipt)
    requires Invariant(s) && !s.retired && i < |s.ledgers| && Neutral(r)
    requires l == s.ledgers[i].(birth := l.birth, removed := l.removed, retirement := l.retirement)
    ensures Invariant(Push(SetLedger(s, i, l), r))
  {
    var q := r.(serial := |s.log| + 1);
    LedgersStay(s.log, q, s.ledgers);
    var next := s.ledgers[i := l];
    forall id: nat | !Known(next, id) ensures Untouched(s.log + [q], id) {
      KnownStays(s.ledgers, i, l, id);
    }
    assert LedgersSound(s.log + [q], next);
    PushKeeps(SetLedger(s, i, l), r);
  }

  lemma BirthKeeps(s: State, same: bool, t: Target, birth: nat, proved: bool, succeeds: bool)
    requires Invariant(s)
    ensures Invariant(OnBirth(s, same, t, birth, proved, succeeds))
  {
    if s.admitted && !s.retired {
      var i := Find(s.ledgers, t.netId);
      var r := Row(Birth, Mapping).(netId := t.netId, event := birth, before := t.hp, after := t.hp);
      CurrentKeeps(s, same);
      PushNeutral(Current(s, same), r);
      RetireKeeps(Push(Current(s, same), r), Mapping);
      if i < |s.ledgers| {
        FieldKeeps(s, i, s.ledgers[i].(birth := birth), r.(reason := Ok, qualified := true));
      } else if BirthOpens(s, same, t, birth, proved, succeeds) {
        OpenKeeps(s, NewLedger(t).(birth := birth), r.(reason := Ok, qualified := true));
      }
    }
  }

  lemma LeaveKeeps(s: State, same: bool, id: nat, birth: nat, retirement: nat, t: Target, proved: bool)
    requires Invariant(s)
    ensures Invariant(OnLeave(s, same, id, birth, retirement, t, proved))
  {
    if s.admitted && !s.retired {
      var i := Find(s.ledgers, id);
      var r := Row(Leave, Mapping).(netId := t.netId, event := retirement);
      CurrentKeeps(s, same);
      PushNeutral(Current(s, same), r);
      RetireKeeps(Push(Current(s, same), r), Mapping);
      if i < |s.ledgers| {
        FieldKeeps(s, i, s.ledgers[i].(removed := true, retirement := retirement), r.(reason := Ok, qualified := true));
      }
    }
  }

  lemma OtherKeeps(s: State, reason: Reason, fatal: Option<Reason>)
    requires Invariant(s)
    ensures Invariant(OnOther(s, reason, fatal))
  {
    if s.admitted && !s.retired {
      PushNeutral(s, Row(Other, reason));
      if fatal.Some? {
        RetireKeeps(Push(s, Row(Other, reason)), fatal.value);
      }
    }
  }

  lemma StepKeeps(s: State, e: Event)
    requires Invariant(s)
    ensures Invariant(Step(s, e))
  {
    match e
    case EvPopulation(eligible, same, frame, rows) => PopulationKeeps(s, eligible, same, frame, rows);
    case EvHit(same, h) => HitKeeps(s, same, h);
    case EvApply(same, a) => ApplyKeeps(s, same, a);
    case EvHp(same, p) => HpKeeps(s, same, p);
    case EvDeath(same, id, level, framed, sent, despawn) => DeathKeeps(s, same, id, level, framed, sent, despawn);
    case EvBirth(same, t, birth, proved, succeeds) => BirthKeeps(s, same, t, birth, proved, succeeds);
    case EvLeave(same, id, birth, retirement, t, proved) => LeaveKeeps(s, same, id, birth, retirement, t, proved);
    case EvOther(reason, fatal) => OtherKeeps(s, reason, fatal);
    case EvRetire(why) => RetireKeeps(s, why);
    case EvPop =>
  }

  // ---------------------------------------------------------------- every run

  function Run(s: State, es: seq<Event>): State
    requires s.drained <= |s.log|
    decreases |es|
  {
    if es == [] then s else Run(Step(s, es[0]), es[1..])
  }

  lemma {:induction false} RunKeeps(s: State, es: seq<Event>)
    requires Invariant(s)
    ensures Invariant(Run(s, es))
    decreases |es|
  {
    if es != [] {
      StepKeeps(s, es[0]);
      RunKeeps(Step(s, es[0]), es[1..]);
    }
  }

  lemma InitialHolds()
    ensures Invariant(Initial())
  {
  }

  // Published HP is explained: in an unretired run each target's published HP exceeds its expected
  // HP by exactly the losses recorded since its last publication, and the causes it holds are those.
  lemma PublishedIsExplained(es: seq<Event>, i: nat)
    requires var s := Run(Initial(), es); !s.retired && i < |s.ledgers|
    ensures var s := Run(Initial(), es);
            && s.ledgers[i].published - s.ledgers[i].expected == Losses(s.log, s.ledgers[i].identity.netId)
            && s.ledgers[i].causes == Events(s.log, s.ledgers[i].identity.netId)
  {
    InitialHolds();
    RunKeeps(Initial(), es);
  }

  // Every qualified publication on record, retired or not, lists exactly the causes since the one
  // before it, and the HP it gives up is their sum.
  lemma PublicationsAreExplained(es: seq<Event>, i: nat)
    requires i < |Run(Initial(), es).log|
    ensures Explained(Run(Initial(), es).log, i)
  {
    InitialHolds();
    RunKeeps(Initial(), es);
  }

  // A death is qualified at most once per target, and only after a recorded cause reached zero.
  lemma DeathOnceAfterCause(es: seq<Event>, i: nat)
    requires var log := Run(Initial(), es).log; i < |log| && IsDeath(log[i], log[i].netId)
    ensures var log := Run(Initial(), es).log;
            Deaths(log, log[i].netId) == 1 && Killed(log[..i], log[i].netId)
  {
    InitialHolds();
    RunKeeps(Initial(), es);
    var log := Run(Initial(), es).log;
    DeathCounted(log, i);
  }

  lemma {:induction false} DeathCounted(log: seq<Receipt>, i: nat)
    requires i < |log| && IsDeath(log[i], log[i].netId)
    ensures Deaths(log, log[i].netId) >= 1
    decreases |log|
  {
    if i < |log| - 1 {
      DeathCounted(log[..|log| - 1], i);
    }
  }

  // Receipts are conserved and popped in consecutive order; a lost one retires the engine.
  lemma ReceiptsConserved(es: seq<Event>)
    ensures var s := Run(Initial(), es);
            && s.started == s.drained + (|s.log| - s.drained) + s.dropped && s.drained <= |s.log|
            && (s.dropped > 0 ==> s.retired)
            && (s.drained < |s.log| ==> Pop(s).1.Some? && Pop(s).1.value.serial == s.drained + 1)
  {
    InitialHolds();
    RunKeeps(Initial(), es);
  }

  lemma {:induction false} NoFault(ls: seq<Ledger>, rows: seq<Target>, i: nat)
    requires i <= |rows| && CensusFault(ls, rows, i) == None
    ensures forall k :: i <= k < |rows| ==> RowKnown(ls, rows[k]) && !Repeats(rows, k)
    decreases |rows| - i
  {
    if i < |rows| {
      NoFault(ls, rows, i + 1);
    }
  }

  // A census accepted without retirement is the ledgers' own: each row is a live ledger at its
  // expected HP, and each live ledger is a row or a published death at zero.
  lemma CensusMatches(s: State, same: bool, eligible: bool, frame: nat, rows: seq<Target>)
    requires Invariant(s) && s.admitted && !Population(s, eligible, same, frame, rows).retired
    ensures Population(s, eligible, same, frame, rows) == s
    ensures forall i :: 0 <= i < |rows| ==>
              exists k :: 0 <= k < |s.ledgers| && !s.ledgers[k].removed && s.ledgers[k].identity.netId == rows[i].netId
                && s.ledgers[k].expected == rows[i].hp
                && s.ledgers[k].published - rows[i].hp == Losses(s.log, rows[i].netId)
    ensures Accounted(s.ledgers, rows)
  {
    RetireKeeps(s, Scope);
    RetireKeeps(s, Mapping);
    RetireKeeps(s, UnknownDelta);
    if CensusFault(s.ledgers, rows, 0).None? {
      NoFault(s.ledgers, rows, 0);
    }
    forall i | 0 <= i < |rows|
      ensures exists k :: 0 <= k < |s.ledgers| && !s.ledgers[k].removed && s.ledgers[k].identity.netId == rows[i].netId
                && s.ledgers[k].expected == rows[i].hp
                && s.ledgers[k].published - rows[i].hp == Losses(s.log, rows[i].netId)
    {
      assert RowKnown(s.ledgers, rows[i]);
      var k := Find(s.ledgers, rows[i].netId);
      assert LedgerSound(s.log, s.ledgers[k]);
    }
  }

  // A qualified HP packet names only current HP: for every row, what was published before less what
  // has been lost since.
  lemma PacketIsCurrent(s: State, same: bool, p: HpFacts, k: nat)
    requires Invariant(s) && PublishQualifies(s, same, p) && k < |p.rows|
    ensures var i := Find(s.ledgers, p.rows[k].netId);
            i < |s.ledgers| && p.rows[k].hp == s.ledgers[i].published - Losses(s.log, p.rows[k].netId)
  {
    var i := Find(s.ledgers, p.rows[k].netId);
    assert LedgerSound(s.log, s.ledgers[i]);
  }

  // The test that a changed HP has a cause is implied by the test that it is the expected HP.
  lemma CauseTestIsRedundant(s: State, i: nat)
    requires Invariant(s) && !s.retired && i < |s.ledgers| && s.ledgers[i].causes == []
    ensures s.ledgers[i].expected == s.ledgers[i].published
  {
    assert LedgerSound(s.log, s.ledgers[i]);
    NoCauseNoLoss(s.log, s.ledgers[i].identity.netId);
  }

  lemma {:induction false} NoCauseNoLoss(log: seq<Receipt>, id: nat)
    requires Events(log, id) == []
    ensures Losses(log, id) == 0
    decreases |log|
  {
    if log != [] && !IsPublication(log[|log| - 1], id) {
      assert |Events(log, id)| == |Events(log[..|log| - 1], id)| + (if IsCause(log[|log| - 1], id) then 1 else 0);
      NoCauseNoLoss(log[..|log| - 1], id);
    }
  }
}
