// The ledger's packets and members (inject/src/CombatCausalTrace.hpp): exactly which HP packets are
// current, which births open or bind a ledger, and which departures close one.
module CausalMembers {
  import opened Common
  import opened CausalLedger
  import opened CausalSoundness
  import opened CausalLaw

  // ---------------------------------------------------------------- packets

  // A row of a packet is what some live ledger expects of its target.
  predicate Expected(ls: seq<Ledger>, w: WireRow) {
    exists i :: 0 <= i < |ls| && !ls[i].removed && ls[i].identity.netId == w.netId && 0 < w.hp < 0x8000_0000
             && w.hp == ls[i].expected && w.maxHp == ls[i].identity.maxHp
  }

  lemma ExpectedIff(s: State, w: WireRow)
    requires Invariant(s) && !s.retired
    ensures Expected(s.ledgers, w) <==>
            var i := Find(s.ledgers, w.netId);
            i < |s.ledgers| && 0 < w.hp < 0x8000_0000 && w.maxHp == s.ledgers[i].identity.maxHp && w.hp == s.ledgers[i].expected
  {
    if Expected(s.ledgers, w) {
      var i :| 0 <= i < |s.ledgers| && !s.ledgers[i].removed && s.ledgers[i].identity.netId == w.netId && 0 < w.hp < 0x8000_0000
             && w.hp == s.ledgers[i].expected && w.maxHp == s.ledgers[i].identity.maxHp;
      FindsLive(s.ledgers, i);
    }
  }

  // An HP packet for a live target is current exactly when it has one to five rows, distinct, each the
  // expected HP of a live target, and one of them the target's.
  lemma WireIff(s: State, i: nat, rows: seq<WireRow>)
    requires Invariant(s) && !s.retired && i < |s.ledgers| && !s.ledgers[i].removed
    ensures var l := s.ledgers[i];
            HpWire(s.ledgers, l.identity.netId, l.expected, l.identity.maxHp, rows) <==>
            && 1 <= |rows| <= 5 && (forall j, k :: 0 <= j < k < |rows| ==> rows[j].netId != rows[k].netId)
            && (forall k :: 0 <= k < |rows| ==> Expected(s.ledgers, rows[k]))
            && exists k :: 0 <= k < |rows| && rows[k].netId == l.identity.netId
  {
    FindsLive(s.ledgers, i);
    forall k | 0 <= k < |rows|
      ensures var j := Find(s.ledgers, rows[k].netId);
              Expected(s.ledgers, rows[k]) <==>
              j < |s.ledgers| && 0 < rows[k].hp < 0x8000_0000 && rows[k].maxHp == s.ledgers[j].identity.maxHp
              && rows[k].hp == s.ledgers[j].expected
    {
      ExpectedIff(s, rows[k]);
    }
  }

  // ---------------------------------------------------------------- members

  // A member the lifecycle evidence is about: a reviewed creature with its own HP.
  predicate Creature(t: Target, birth: nat) {
    birth != 0 && SameTarget(t, t) && t.objectId == 302 && t.kind == 4 && 0 < t.hp <= t.maxHp
  }

  // The birth of a live member is bound to its ledger exactly when it is proved for this very target
  // at its expected HP and none was bound; said again it changes nothing, and any other retires.
  lemma BoundBirthIff(s: State, same: bool, i: nat, t: Target, birth: nat, proved: bool, succeeds: bool)
    requires Invariant(s) && s.admitted && !s.retired && i < |s.ledgers| && !s.ledgers[i].removed
    requires t.netId == s.ledgers[i].identity.netId
    ensures var (l, r) := (s.ledgers[i], Step(s, EvBirth(same, t, birth, proved, succeeds)));
            var known := same && proved && Creature(t, birth) && SameTarget(l.identity, t);
            if known && l.birth == birth then r == s
            else if known && l.birth == 0 && t.hp == l.expected && Room(s) then
              Records(s, r, Birth, t.netId, t.hp, t.hp) && r.ledgers == s.ledgers[i := l.(birth := birth)]
            else r.retired
  {
    FindsLive(s.ledgers, i);
  }

  lemma {:induction false} FindsNone(ls: seq<Ledger>, id: nat)
    requires forall i :: 0 <= i < |ls| ==> ls[i].removed || ls[i].identity.netId != id
    ensures Find(ls, id) == |ls|
    decreases |ls|
  {
    if ls != [] {
      FindsNone(ls[1..], id);
    }
  }

  // A ledger is opened for a member that has none exactly when its birth is proved to succeed a retired
  // one, under a network id and an actor no ledger ever had, while fewer than five are alive.
  lemma OpenedIff(s: State, same: bool, t: Target, birth: nat, proved: bool, succeeds: bool)
    requires Invariant(s) && s.admitted && !s.retired
    requires forall i :: 0 <= i < |s.ledgers| ==> s.ledgers[i].removed || s.ledgers[i].identity.netId != t.netId
    ensures var r := Step(s, EvBirth(same, t, birth, proved, succeeds));
            var opens := same && proved && succeeds && Creature(t, birth) && t.netId != 0 && |s.ledgers| < 64
                         && Actives(s.ledgers) < 5 && Room(s)
                         && forall i :: 0 <= i < |s.ledgers| ==>
                              s.ledgers[i].identity.netId != t.netId && s.ledgers[i].identity.actor != t.actor;
            && (r.retired <==> !opens)
            && (opens ==> Records(s, r, Birth, t.netId, t.hp, t.hp) && r.ledgers == s.ledgers + [NewLedger(t).(birth := birth)])
  {
    FindsNone(s.ledgers, t.netId);
  }

  // A live member leaves exactly when its retirement, after its own birth, is proved for this very
  // target, alive at its expected HP; any other departure retires the engine.
  lemma LeftIff(s: State, same: bool, i: nat, birth: nat, retirement: nat, t: Target, proved: bool)
    requires Invariant(s) && s.admitted && !s.retired && i < |s.ledgers| && !s.ledgers[i].removed
    ensures var l := s.ledgers[i];
            var r := Step(s, EvLeave(same, l.identity.netId, birth, retirement, t, proved));
            var leaves := same && proved && l.birth == birth && birth < retirement && !l.dead && SameTarget(l.identity, t)
                          && t.hp == l.expected && t.hp > 0 && Room(s);
            && (r.retired <==> !leaves)
            && (leaves ==> r.ledgers == s.ledgers[i := l.(removed := true, retirement := retirement)])
  {
    FindsLive(s.ledgers, i);
  }
}
