// The causal HP ledger of the host (class Engine of inject/src/CombatCausalTrace.hpp): every change
// of an admitted enemy's HP must be explained by a recorded cause, or the engine retires for good.
// What a hit, a scope or an evidence packet must look like natively is decided outside the ledger
// and arrives here as yes or no.
module CausalLedger {
  import opened Common

  const TARGET_COUNT: nat := 5
  const QUEUE_COUNT: nat := 128
  const CAUSE_COUNT: nat := 16
  const LAST_SERIAL: nat := 0xffff_ffff_ffff_ffff
  const APPLY_EVENT: nat := 0x8000_0000_0000_0000

  datatype Kind = Admission | Hit | HostApply | HpPublish | DeathPublish | Retired | Birth | Leave | Other
  datatype Reason = Ok | Scope | Mapping | Source | Native | UnknownDelta | Unavailable | Loss | Pending

  // `body` stands for the identity pointers besides the actor.
  datatype Target = Target(netId: nat, actor: nat, body: nat, objectId: nat, kind: nat, maxHp: int, hp: int)

  datatype Receipt = Receipt(
    kind: Kind, reason: Reason, serial: nat, netId: nat, event: nat, before: int, after: int, qualified: bool, causes: seq<nat>)

  datatype Ledger = Ledger(
    identity: Target, expected: int, published: int, lastEvent: nat, causes: seq<nat>, causeBefore: int, causeAfter: int,
    deathSent: bool, dead: bool, removed: bool, birth: nat, retirement: nat)

  // `log` is every receipt accepted so far; the first `drained` have been popped, the rest are the
  // ring buffer's contents.
  datatype State = State(
    ledgers: seq<Ledger>, admitted: bool, retired: bool, candidates: Option<(nat, seq<Target>)>, lastClaim: nat,
    log: seq<Receipt>, drained: nat, started: nat, dropped: nat)

  function Initial(): State { State([], false, false, None, 0, [], 0, 0, 0) }

  predicate SameTarget(a: Target, b: Target) {
    a.actor != 0 && a.body != 0 && a.(hp := 0) == b.(hp := 0)
  }

  // ---------------------------------------------------------------- receipts

  function Row(kind: Kind, reason: Reason): Receipt { Receipt(kind, reason, 0, 0, 0, 0, 0, false, []) }

  predicate Full(s: State)
    requires s.drained <= |s.log|
  {
    |s.log| == LAST_SERIAL || |s.log| - s.drained == QUEUE_COUNT
  }

  // A receipt that does not fit is lost, and the engine with it.
  function Push(s: State, r: Receipt): (next: State)
    requires s.drained <= |s.log|
    ensures next.drained <= |next.log|
  {
    if Full(s) then s.(started := s.started + 1, dropped := s.dropped + 1, retired := true)
    else s.(started := s.started + 1, log := s.log + [r.(serial := |s.log| + 1)])
  }

  function Retire(s: State, why: Reason): (next: State)
    requires s.drained <= |s.log|
    ensures next.drained <= |next.log|
  {
    if s.retired then s else Push(s.(retired := true), Row(Retired, why))
  }

  // The scope test: a different scope retires the engine.
  function Current(s: State, same: bool): (next: State)
    requires s.drained <= |s.log|
    ensures next.drained <= |next.log|
  {
    if !s.admitted || s.retired || same then s else Retire(s, Scope)
  }

  predicate IsCurrent(s: State, same: bool) { s.admitted && !s.retired && same }

  function Pop(s: State): (State, Option<Receipt>)
    requires s.drained <= |s.log|
  {
    if s.drained == |s.log| then (s, None) else (s.(drained := s.drained + 1), Some(s.log[s.drained]))
  }

  // ---------------------------------------------------------------- the ledger

  // The index of the live ledger of a network id, or the number of ledgers.
  function Find(ls: seq<Ledger>, id: nat): (i: nat)
    ensures i <= |ls| && (i < |ls| ==> ls[i].identity.netId == id && !ls[i].removed && id != 0)
  {
    if ls == [] then 0
    else if id != 0 && ls[0].identity.netId == id && !ls[0].removed then 0
    else 1 + Find(ls[1..], id)
  }

  // The index of the last ledger with this actor, or the number of ledgers.
  function FindActor(ls: seq<Ledger>, actor: nat): (i: nat)
    ensures i <= |ls| && (i < |ls| ==> ls[i].identity.actor == actor)
    decreases |ls|
  {
    if ls == [] then 0
    else if ls[|ls| - 1].identity.actor == actor then |ls| - 1
    else
      var i := FindActor(ls[..|ls| - 1], actor);
      if i == |ls| - 1 then |ls| else i
  }

  predicate Explains(l: Ledger, event: nat, before: int, after: int) {
    event != 0 && before == l.expected && 0 <= after < before && |l.causes| < CAUSE_COUNT && event != l.lastEvent
  }

  function Cause(l: Ledger, event: nat, before: int, after: int): Ledger {
    l.(causes := l.causes + [event], lastEvent := event, expected := after, causeBefore := before, causeAfter := after)
  }

  function SetLedger(s: State, i: nat, l: Ledger): State
    requires i < |s.ledgers|
  {
    s.(ledgers := s.ledgers[i := l])
  }

  // ---------------------------------------------------------------- admission and census

  function NewLedger(t: Target): Ledger { Ledger(t, t.hp, t.hp, 0, [], 0, 0, false, false, false, 0, 0) }

  predicate Admissible(rows: seq<Target>) {
    && |rows| == TARGET_COUNT
    && (forall i :: 0 <= i < |rows| ==>
          SameTarget(rows[i], rows[i]) && rows[i].objectId == 302 && rows[i].kind == 4 && rows[i].netId != 0
          && 0 < rows[i].hp <= rows[i].maxHp)
    && Apart(rows)
  }

  predicate Apart(rows: seq<Target>) {
    forall i, j :: 0 <= i < j < |rows| ==> rows[i].netId != rows[j].netId && rows[i].actor != rows[j].actor
  }

  predicate Listed(t: Target, rows: seq<Target>) {
    exists i :: 0 <= i < |rows| && SameTarget(rows[i], t) && rows[i].hp == t.hp
  }

  // The same five targets in the next frame of the same scope.
  predicate Repeated(s: State, sameScope: bool, frame: nat, rows: seq<Target>) {
    && s.candidates.Some? && sameScope && frame == s.candidates.value.0 + 1
    && forall i :: 0 <= i < |rows| ==> Listed(rows[i], s.candidates.value.1)
  }

  function AdmitRows(s: State, rows: seq<Target>): (next: State)
    requires s.drained <= |s.log|
    ensures next.drained <= |next.log|
    decreases |rows|
  {
    if rows == [] then s
    else
      AdmitRows(Push(s.(ledgers := s.ledgers + [NewLedger(rows[0])]),
                     Row(Admission, Ok).(netId := rows[0].netId, after := rows[0].hp, qualified := true)), rows[1..])
  }

  predicate RowKnown(ls: seq<Ledger>, t: Target) {
    Find(ls, t.netId) < |ls| && SameTarget(ls[Find(ls, t.netId)].identity, t) && t.hp == ls[Find(ls, t.netId)].expected
  }

  predicate Seen(l: Ledger, rows: seq<Target>) { exists i :: 0 <= i < |rows| && rows[i].netId == l.identity.netId }

  // Every live ledger is in the census, or is a published death.
  predicate Accounted(ls: seq<Ledger>, rows: seq<Target>) {
    forall i :: 0 <= i < |ls| ==> ls[i].removed || Seen(ls[i], rows) || (ls[i].dead && ls[i].expected == 0)
  }

  // An earlier row of the census names the same target or actor.
  predicate Repeats(rows: seq<Target>, i: nat)
    requires i < |rows|
  {
    exists j :: 0 <= j < i && (rows[j].netId == rows[i].netId || rows[j].actor == rows[i].actor)
  }

  // What is wrong with the first faulty row from i on.
  function CensusFault(ls: seq<Ledger>, rows: seq<Target>, i: nat): (fault: Option<Reason>)
    requires i <= |rows|
    ensures fault.Some? ==> fault.value == Mapping || fault.value == UnknownDelta
    decreases |rows| - i
  {
    if i == |rows| then None
    else if Repeats(rows, i) then Some(Mapping)
    else if !RowKnown(ls, rows[i]) then Some(UnknownDelta)
    else CensusFault(ls, rows, i + 1)
  }

  function Census(s: State, rows: seq<Target>): (next: State)
    requires s.drained <= |s.log|
    ensures next.drained <= |next.log|
  {
    if |rows| > TARGET_COUNT then Retire(s, Mapping)
    else if CensusFault(s.ledgers, rows, 0).Some? then Retire(s, CensusFault(s.ledgers, rows, 0).value)
    else if !Accounted(s.ledgers, rows) then Retire(s, Mapping)
    else s
  }

  function Population(s: State, eligible: bool, same: bool, frame: nat, rows: seq<Target>): (next: State)
    requires s.drained <= |s.log|
    ensures next.drained <= |next.log|
  {
    if s.retired then s
    else if !s.admitted then
      if !eligible || !Admissible(rows) then s
      else if !Repeated(s, same, frame, rows) then s.(candidates := Some((frame, rows)))
      else AdmitRows(s.(admitted := true), rows)
    else if !same then Retire(s, Scope)
    else Census(s, rows)
  }

  // ---------------------------------------------------------------- hits

  // A native hit: the victim's actor, the HP around it, and whether its evidence supports it as a
  // cause in this scope.
  datatype HitFacts = HitFacts(actor: nat, event: nat, before: int, after: int, supported: bool)

  predicate HitQualifies(s: State, same: bool, h: HitFacts) {
    && IsCurrent(s, same) && h.supported
    && var i := FindActor(s.ledgers, h.actor);
    && i < |s.ledgers| && !s.ledgers[i].removed && Explains(s.ledgers[i], h.event, h.before, h.after)
  }

  function HitReceipt(s: State, h: HitFacts, qualified: bool): Receipt {
    var i := FindActor(s.ledgers, h.actor);
    Row(Hit, if qualified then Ok else Source).(
      netId := if i < |s.ledgers| then s.ledgers[i].identity.netId else 0,
      event := h.event, before := h.before, after := h.after, qualified := qualified)
  }

  // The hit is on a tracked actor; an unreadable actor counts as one while a ledger slot is unused.
  predicate Strikes(s: State, h: HitFacts) {
    FindActor(s.ledgers, h.actor) < |s.ledgers| || (h.actor == 0 && |s.ledgers| < 64)
  }

  function OnHit(s: State, same: bool, h: HitFacts): (next: State)
    requires s.drained <= |s.log|
    ensures next.drained <= |next.log|
  {
    if !s.admitted || s.retired then s
    else
      var i := FindActor(s.ledgers, h.actor);
      if HitQualifies(s, same, h) then
        Push(SetLedger(s, i, Cause(s.ledgers[i], h.event, h.before, h.after)), HitReceipt(s, h, true))
      else
        var p := Push(Current(s, same), HitReceipt(s, h, false));
        if Strikes(s, h) && h.before != h.after then Retire(p, UnknownDelta) else p
  }

  // ---------------------------------------------------------------- the host's own HP writes

  datatype ApplyFacts = ApplyFacts(
    target: Target, keyId: nat, keyed: bool, sequence: nat, damage: int, before: int, after: int,
    attempted: bool, returned: bool, readback: bool)

  // The next serial, as a 64-bit word with its top bit set.
  function ApplyEvent(s: State): nat { WithTopBit((|s.log| + 1) % U64_RANGE) }

  function WithTopBit(word: u64): nat { if word >= APPLY_EVENT then word else word + APPLY_EVENT }

  // The write was made and read back, for a newer claim, and took exactly its damage.
  predicate Performed(a: ApplyFacts, lastClaim: nat) {
    && a.attempted && a.returned && a.readback && a.keyed && a.sequence > lastClaim && a.damage > 0
    && a.after == (if a.before - a.damage < 0 then 0 else a.before - a.damage)
  }

  predicate ApplyQualifies(s: State, same: bool, a: ApplyFacts) {
    && IsCurrent(s, same) && Performed(a, s.lastClaim)
    && var i := Find(s.ledgers, a.keyId);
    && i < |s.ledgers| && SameTarget(s.ledgers[i].identity, a.target) && Explains(s.ledgers[i], ApplyEvent(s), a.before, a.after)
  }

  function ApplyReceipt(s: State, a: ApplyFacts, qualified: bool): Receipt {
    Row(HostApply, if qualified then Ok else Native).(
      netId := if qualified then a.keyId else a.target.netId,
      event := ApplyEvent(s), before := a.before, after := a.after, qualified := qualified)
  }

  function OnHostApply(s: State, same: bool, a: ApplyFacts): (next: State)
    requires s.drained <= |s.log|
    ensures next.drained <= |next.log|
  {
    if !s.admitted || s.retired then s
    else if ApplyQualifies(s, same, a) then
      var i := Find(s.ledgers, a.keyId);
      Push(SetLedger(s, i, Cause(s.ledgers[i], ApplyEvent(s), a.before, a.after)).(lastClaim := a.sequence), ApplyReceipt(s, a, true))
    else Retire(Push(Current(s, same), ApplyReceipt(s, a, false)), Native)
  }

  // ---------------------------------------------------------------- publications

  datatype WireRow = WireRow(netId: nat, hp: int, maxHp: int)

  // An EnemyHp packet for target `id`: its rows are known, distinct, and all current.
  predicate HpWire(ls: seq<Ledger>, id: nat, hp: int, maxHp: int, rows: seq<WireRow>) {
    && 0 < |rows| <= TARGET_COUNT
    && (forall i, j :: 0 <= i < j < |rows| ==> rows[i].netId != rows[j].netId)
    && (forall i :: 0 <= i < |rows| ==>
          && Find(ls, rows[i].netId) < |ls| && 0 < rows[i].hp < 0x8000_0000
          && rows[i].maxHp == ls[Find(ls, rows[i].netId)].identity.maxHp
          && rows[i].hp == ls[Find(ls, rows[i].netId)].expected
          && (rows[i].netId == id ==> rows[i].hp == hp && rows[i].maxHp == maxHp))
    && exists i :: 0 <= i < |rows| && rows[i].netId == id
  }

  // `sent` is the transport's outcome, `framed` the byte-level frame and header checks.
  datatype HpFacts = HpFacts(id: nat, sequence: nat, hp: int, maxHp: int, rows: seq<WireRow>, framed: bool, sent: bool, despawn: bool)

  predicate PublishQualifies(s: State, same: bool, p: HpFacts) {
    && IsCurrent(s, same) && p.framed && p.sent && !p.despawn && p.sequence != 0
    && var i := Find(s.ledgers, p.id);
    && i < |s.ledgers| && HpWire(s.ledgers, p.id, p.hp, p.maxHp, p.rows)
    && p.hp == s.ledgers[i].expected && p.maxHp == s.ledgers[i].identity.maxHp
    && (p.hp == s.ledgers[i].published || |s.ledgers[i].causes| > 0)
  }

  function PublishReceipt(s: State, kind: Kind, id: nat, hp: int, qualified: bool): Receipt {
    var i := Find(s.ledgers, id);
    if i < |s.ledgers| then
      Row(kind, if qualified then Ok else Unavailable).(
        netId := id, event := s.ledgers[i].lastEvent, before := s.ledgers[i].published, after := hp, qualified := qualified,
        causes := s.ledgers[i].causes)
    else Row(kind, Unavailable)
  }

  function OnHpPublish(s: State, same: bool, p: HpFacts): (next: State)
    requires s.drained <= |s.log|
    ensures next.drained <= |next.log|
  {
    if !s.admitted || s.retired then s
    else if PublishQualifies(s, same, p) then
      var i := Find(s.ledgers, p.id);
      Push(SetLedger(s, i, s.ledgers[i].(published := p.hp, causes := [])), PublishReceipt(s, HpPublish, p.id, p.hp, true))
    else Push(Current(s, same), PublishReceipt(s, HpPublish, p.id, p.hp, false))
  }

  predicate DeathQualifies(s: State, same: bool, id: nat, framed: bool, sent: bool, despawn: bool) {
    && IsCurrent(s, same) && framed && sent && !despawn
    && var i := Find(s.ledgers, id);
    && i < |s.ledgers| && !s.ledgers[i].deathSent && s.ledgers[i].expected == 0
    && s.ledgers[i].causeBefore > 0 && s.ledgers[i].causeAfter == 0 && s.ledgers[i].lastEvent != 0
  }

  function OnDeathPublish(s: State, same: bool, id: nat, hp: int, framed: bool, sent: bool, despawn: bool): (next: State)
    requires s.drained <= |s.log|
    ensures next.drained <= |next.log|
  {
    if !s.admitted || s.retired then s
    else if DeathQualifies(s, same, id, framed, sent, despawn) then
      var i := Find(s.ledgers, id);
      Push(SetLedger(s, i, s.ledgers[i].(deathSent := true, dead := true)), PublishReceipt(s, DeathPublish, id, hp, true))
    else Retire(Push(Current(s, same), PublishReceipt(s, DeathPublish, id, hp, false)), UnknownDelta)
  }

  // ---------------------------------------------------------------- membership

  function Actives(ls: seq<Ledger>): nat {
    if ls == [] then 0 else (if !ls[0].removed && !ls[0].dead then 1 else 0) + Actives(ls[1..])
  }

  // A new member of a removed one's record; `proved` is the lifecycle evidence, `succeeds` the
  // retired predecessor found in it.
  predicate BirthOpens(s: State, same: bool, t: Target, birth: nat, proved: bool, succeeds: bool) {
    && IsCurrent(s, same) && proved && succeeds && birth != 0 && SameTarget(t, t) && t.objectId == 302 && t.kind == 4
    && 0 < t.hp <= t.maxHp && t.netId != 0 && |s.ledgers| < 64 && Actives(s.ledgers) < TARGET_COUNT
    && forall i :: 0 <= i < |s.ledgers| ==> s.ledgers[i].identity.netId != t.netId && s.ledgers[i].identity.actor != t.actor
  }

  // The present member's birth is bound, or a successor is opened.
  function OnBirth(s: State, same: bool, t: Target, birth: nat, proved: bool, succeeds: bool): (next: State)
    requires s.drained <= |s.log|
    ensures next.drained <= |next.log|
  {
    if !s.admitted || s.retired then s
    else
      var i := Find(s.ledgers, t.netId);
      var known := IsCurrent(s, same) && proved && birth != 0 && SameTarget(t, t) && t.objectId == 302 && t.kind == 4
                   && 0 < t.hp <= t.maxHp && i < |s.ledgers|
                   && SameTarget(s.ledgers[i].identity, t);
      var r := Row(Birth, Mapping).(netId := t.netId, event := birth, before := t.hp, after := t.hp);
      if known && s.ledgers[i].birth == birth then s
      else if known && s.ledgers[i].birth == 0 && s.ledgers[i].expected == t.hp then
        Push(SetLedger(s, i, s.ledgers[i].(birth := birth)), r.(reason := Ok, qualified := true))
      else if i == |s.ledgers| && BirthOpens(s, same, t, birth, proved, succeeds) then
        Push(s.(ledgers := s.ledgers + [NewLedger(t).(birth := birth)]), r.(reason := Ok, qualified := true))
      else Retire(Push(Current(s, same), r), Mapping)
  }

  function OnLeave(s: State, same: bool, id: nat, birth: nat, retirement: nat, t: Target, proved: bool): (next: State)
    requires s.drained <= |s.log|
    ensures next.drained <= |next.log|
  {
    if !s.admitted || s.retired then s
    else
      var i := Find(s.ledgers, id);
      var r := Row(Leave, Mapping).(netId := t.netId, event := retirement);
      if IsCurrent(s, same) && proved && i < |s.ledgers| && s.ledgers[i].birth == birth && retirement > birth && !s.ledgers[i].dead
         && SameTarget(s.ledgers[i].identity, t) && t.hp == s.ledgers[i].expected && t.hp > 0 then
        Push(SetLedger(s, i, s.ledgers[i].(removed := true, retirement := retirement)), r.(reason := Ok, qualified := true))
      else Retire(Push(Current(s, same), r), Mapping)
  }

  // A claim or a consumer's outcome: recorded only, though some of them retire the engine.
  function OnOther(s: State, reason: Reason, fatal: Option<Reason>): (next: State)
    requires s.drained <= |s.log|
    ensures next.drained <= |next.log|
  {
    if !s.admitted || s.retired then s
    else
      var p := Push(s, Row(Other, reason));
      match fatal case None => p case Some(why) => Retire(p, why)
  }

  // ---------------------------------------------------------------- runs

  datatype Event =
    | EvPopulation(eligible: bool, same: bool, frame: nat, rows: seq<Target>)
    | EvHit(same: bool, hit: HitFacts)
    | EvApply(same: bool, apply: ApplyFacts)
    | EvHp(same: bool, hp: HpFacts)
    | EvDeath(same: bool, id: nat, level: int, framed: bool, sent: bool, despawn: bool)
    | EvBirth(same: bool, target: Target, birth: nat, proved: bool, succeeds: bool)
    | EvLeave(same: bool, id: nat, birth: nat, retirement: nat, target: Target, proved: bool)
    | EvOther(reason: Reason, fatal: Option<Reason>)
    | EvRetire(why: Reason)
    | EvPop

  function Step(s: State, e: Event): (next: State)
    requires s.drained <= |s.log|
    ensures next.drained <= |next.log|
  {
    match e
    case EvPopulation(eligible, same, frame, rows) => Population(s, eligible, same, frame, rows)
    case EvHit(same, h) => OnHit(s, same, h)
    case EvApply(same, a) => OnHostApply(s, same, a)
    case EvHp(same, p) => OnHpPublish(s, same, p)
    case EvDeath(same, id, level, framed, sent, despawn) => OnDeathPublish(s, same, id, level, framed, sent, despawn)
    case EvBirth(same, t, birth, proved, succeeds) => OnBirth(s, same, t, birth, proved, succeeds)
    case EvLeave(same, id, birth, retirement, t, proved) => OnLeave(s, same, id, birth, retirement, t, proved)
    case EvOther(reason, fatal) => OnOther(s, reason, fatal)
    case EvRetire(why) => Retire(s, why)
    case EvPop => Pop(s).0
  }
}
