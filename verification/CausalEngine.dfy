// The engine as the code keeps it (class Engine of inject/src/CombatCausalTrace.hpp): a fixed ring
// of receipts and a table of ledgers changed in place, proved against CausalLedger's functions.
module CausalEngine {
  import opened Common
  import opened CausalLedger
  import CausalSoundness

  // The ring position k after `read`.
  function Slot(read: nat, k: nat): (p: nat)
    ensures p < QUEUE_COUNT
  {
    (read + k) % QUEUE_COUNT
  }

  lemma SlotsApart(read: nat, j: nat, k: nat)
    requires j < k < QUEUE_COUNT
    ensures Slot(read, j) != Slot(read, k)
  {
  }

  lemma SlotMoves(read: nat, k: nat)
    ensures Slot(Slot(read, 1), k) == Slot(read, k + 1)
  {
  }

  class Engine {
    const ring: array<Receipt>
    var read: nat
    var size: nat
    var serial: nat
    var started: nat
    var drained: nat
    var dropped: nat
    var ledgers: seq<Ledger>
    var admitted: bool
    var retired: bool
    var candidates: Option<(nat, seq<Target>)>
    var lastClaim: nat
    // Every receipt accepted so far.
    ghost var log: seq<Receipt>

    ghost predicate Valid()
      reads this, ring
    {
      && ring.Length == QUEUE_COUNT && read < QUEUE_COUNT && size <= QUEUE_COUNT
      && |log| == serial && drained + size == serial
      && (forall k :: 0 <= k < size ==> ring[Slot(read, k)] == log[drained + k])
      && forall i :: 0 <= i < |ledgers| ==> |ledgers[i].causes| <= CAUSE_COUNT
    }

    ghost function Abs(): State
      reads this
    {
      State(ledgers, admitted, retired, candidates, lastClaim, log, drained, started, dropped)
    }

    // Every target's HP is explained by the causes on record.
    ghost predicate Sound()
      reads this
    {
      CausalSoundness.Invariant(Abs())
    }

    constructor ()
      ensures Valid() && Sound() && Abs() == Initial() && fresh(ring)
    {
      ring := new Receipt[QUEUE_COUNT](_ => Row(Other, Ok));
      read, size, serial, started, drained, dropped := 0, 0, 0, 0, 0, 0;
      ledgers, admitted, retired, candidates, lastClaim, log := [], false, false, None, 0, [];
    }

    method Push(r: Receipt)
      requires Valid()
      modifies this, ring
      ensures Valid() && Abs() == CausalLedger.Push(old(Abs()), r)
    {
      started := started + 1;
      if serial == LAST_SERIAL || size == QUEUE_COUNT {
        dropped := dropped + 1;
        retired := true;
        return;
      }
      forall k | 0 <= k < size ensures Slot(read, k) != Slot(read, size) {
        SlotsApart(read, k, size);
      }
      serial := serial + 1;
      ring[Slot(read, size)] := r.(serial := serial);
      log := log + [r.(serial := serial)];
      size := size + 1;
    }

    method Pop() returns (r: Option<Receipt>)
      requires Valid()
      modifies this
      ensures Valid() && (Abs(), r) == CausalLedger.Pop(old(Abs()))
    {
      if size == 0 {
        return None;
      }
      assert Slot(read, 0) == read;
      assert ring[Slot(read, 0)] == log[drained + 0];
      r := Some(ring[read]);
      forall k | 0 <= k < size - 1 ensures ring[Slot(Slot(read, 1), k)] == log[drained + 1 + k] {
        SlotMoves(read, k);
        assert ring[Slot(read, k + 1)] == log[drained + (k + 1)];
      }
      read := Slot(read, 1);
      size := size - 1;
      drained := drained + 1;
    }

    method Retire(why: Reason)
      requires Valid()
      modifies this, ring
      ensures Valid() && Abs() == CausalLedger.Retire(old(Abs()), why)
    {
      if retired {
        return;
      }
      retired := true;
      Push(Row(Retired, why));
    }

    method Current(same: bool) returns (current: bool)
      requires Valid()
      modifies this, ring
      ensures Valid() && Abs() == CausalLedger.Current(old(Abs()), same) && current == IsCurrent(old(Abs()), same)
    {
      if !admitted || retired {
        return false;
      }
      if !same {
        Retire(Scope);
        return false;
      }
      return true;
    }

    // Cause: the ledger takes the loss, or refuses it.
    method TakeCause(i: nat, event: nat, before: int, after: int) returns (taken: bool)
      requires i < |ledgers| && |ledgers[i].causes| <= CAUSE_COUNT
      modifies this`ledgers
      ensures taken == Explains(old(ledgers)[i], event, before, after)
      ensures ledgers == if taken then old(ledgers)[i := Cause(old(ledgers)[i], event, before, after)] else old(ledgers)
    {
      var l := ledgers[i];
      if event == 0 || before != l.expected || after < 0 || after >= before || |l.causes| == CAUSE_COUNT || event == l.lastEvent {
        return false;
      }
      l := l.(causes := l.causes + [event], lastEvent := event, expected := after);
      l := l.(causeBefore := before, causeAfter := after);
      ledgers := ledgers[i := l];
      return true;
    }

    method FindById(id: nat) returns (i: nat)
      ensures i == Find(ledgers, id)
    {
      i := 0;
      while i < |ledgers|
        invariant i <= |ledgers| && Find(ledgers, id) == i + Find(ledgers[i..], id)
      {
        if id != 0 && ledgers[i].identity.netId == id && !ledgers[i].removed {
          return;
        }
        assert ledgers[i..][1..] == ledgers[i + 1..];
        i := i + 1;
      }
    }

    method FindByActor(actor: nat) returns (i: nat)
      ensures i == FindActor(ledgers, actor)
    {
      var last: Option<nat> := None;
      var k := 0;
      while k < |ledgers|
        invariant k <= |ledgers|
        invariant FindActor(ledgers[..k], actor) == match last case None => k case Some(j) => j
        invariant last.Some? ==> last.value < k
      {
        assert ledgers[..k + 1][..k] == ledgers[..k];
        if ledgers[k].identity.actor == actor {
          last := Some(k);
        }
        k := k + 1;
      }
      assert ledgers[..k] == ledgers;
      return match last case None => |ledgers| case Some(j) => j;
    }

    // The hit is a cause, or is on record without one.
    method RecordHit(same: bool, h: HitFacts)
      requires Valid()
      modifies this, ring
      ensures Valid() && Abs() == OnHit(old(Abs()), same, h)
    {
      if !admitted || retired {
        return;
      }
      var i := FindByActor(h.actor);
      var struck := i < |ledgers| || (h.actor == 0 && |ledgers| < 64);
      var r := Row(CausalLedger.Hit, Source).(
        netId := if i < |ledgers| then ledgers[i].identity.netId else 0, event := h.event, before := h.before, after := h.after);
      var qualified := Current(same);
      if qualified && i < |ledgers| && !ledgers[i].removed && h.supported {
        qualified := TakeCause(i, h.event, h.before, h.after);
      } else {
        qualified := false;
      }
      Push(r.(qualified := qualified, reason := if qualified then Ok else Source));
      if struck && !qualified && h.before != h.after {
        Retire(UnknownDelta);
      }
    }

    method Hit(same: bool, h: HitFacts)
      requires Valid()
      modifies this, ring
      ensures Valid() && Abs() == OnHit(old(Abs()), same, h)
      ensures old(Sound()) ==> Sound()
    {
      if Sound() {
        CausalSoundness.HitKeeps(Abs(), same, h);
      }
      RecordHit(same, h);
    }

    // The write's cause, if it qualifies.
    method TakeApply(current: bool, a: ApplyFacts, event: nat) returns (qualified: bool)
      requires forall k :: 0 <= k < |ledgers| ==> |ledgers[k].causes| <= CAUSE_COUNT
      modifies this`ledgers, this`lastClaim
      ensures var i := Find(old(ledgers), a.keyId);
              && qualified == (current && i < |old(ledgers)| && SameTarget(old(ledgers)[i].identity, a.target)
                               && Performed(a, old(lastClaim)) && Explains(old(ledgers)[i], event, a.before, a.after))
              && ledgers == (if qualified then old(ledgers)[i := Cause(old(ledgers)[i], event, a.before, a.after)] else old(ledgers))
              && lastClaim == (if qualified then a.sequence else old(lastClaim))
    {
      var i := FindById(a.keyId);
      qualified := false;
      if current && i < |ledgers| && SameTarget(ledgers[i].identity, a.target) && Performed(a, lastClaim) {
        qualified := TakeCause(i, event, a.before, a.after);
      }
      if qualified {
        lastClaim := a.sequence;
      }
    }

    // The same for a write of the host's own.
    method RecordApply(same: bool, a: ApplyFacts)
      requires Valid()
      modifies this, ring
      ensures Valid() && Abs() == OnHostApply(old(Abs()), same, a)
    {
      if !admitted || retired {
        return;
      }
      var r := Row(CausalLedger.HostApply, Native).(netId := a.target.netId, before := a.before, after := a.after);
      var event := WithTopBit((serial + 1) % U64_RANGE);
      r := r.(event := event);
      var current := Current(same);
      var qualified := TakeApply(current, a, event);
      if qualified {
        Push(r.(qualified := true, reason := Ok));
      } else {
        Push(r);
        Retire(Native);
      }
    }

    method HostApply(same: bool, a: ApplyFacts)
      requires Valid()
      modifies this, ring
      ensures Valid() && Abs() == OnHostApply(old(Abs()), same, a)
      ensures old(Sound()) ==> Sound()
    {
      if Sound() {
        CausalSoundness.ApplyKeeps(Abs(), same, a);
      }
      RecordApply(same, a);
    }

    method HpPublish(same: bool, p: HpFacts)
      requires Valid()
      modifies this, ring
      ensures Valid() && Abs() == OnHpPublish(old(Abs()), same, p)
      ensures old(Sound()) ==> Sound()
    {
      if Sound() {
        CausalSoundness.HpKeeps(Abs(), same, p);
      }
      if !admitted || retired {
        return;
      }
      var i := FindById(p.id);
      var r := PublishReceipt(State(ledgers, true, false, None, 0, [], 0, 0, 0), CausalLedger.HpPublish, p.id, p.hp, false);
      var current := Current(same);
      var ok := current && i < |ledgers| && p.framed && p.sent && !p.despawn && HpWire(ledgers, p.id, p.hp, p.maxHp, p.rows);
      if ok {
        var l := ledgers[i];
        ok := p.sequence != 0 && p.hp == l.expected && p.maxHp == l.identity.maxHp && (p.hp == l.published || |l.causes| > 0);
        if ok {
          ledgers := ledgers[i := l.(published := p.hp, causes := [])];
        }
      }
      Push(if ok then r.(qualified := true, reason := Ok) else r);
    }

    method DeathPublish(same: bool, id: nat, hp: int, framed: bool, sent: bool, despawn: bool)
      requires Valid()
      modifies this, ring
      ensures Valid() && Abs() == OnDeathPublish(old(Abs()), same, id, hp, framed, sent, despawn)
      ensures old(Sound()) ==> Sound()
    {
      if Sound() {
        CausalSoundness.DeathKeeps(Abs(), same, id, hp, framed, sent, despawn);
      }
      if !admitted || retired {
        return;
      }
      var i := FindById(id);
      var r := PublishReceipt(State(ledgers, true, false, None, 0, [], 0, 0, 0), CausalLedger.DeathPublish, id, hp, false);
      var current := Current(same);
      var ok := current && i < |ledgers| && framed && sent && !despawn;
      if ok {
        var l := ledgers[i];
        ok := !l.deathSent && l.expected == 0 && l.causeBefore > 0 && l.causeAfter == 0 && l.lastEvent != 0;
        if ok {
          ledgers := ledgers[i := l.(deathSent := true, dead := true)];
        }
      }
      Push(if ok then r.(qualified := true, reason := Ok) else r);
      if !ok {
        Retire(UnknownDelta);
      }
    }

    // The census of an admitted engine: the first fault retires it.
    method TakeCensus(rows: seq<Target>)
      requires Valid() && admitted && !retired
      modifies this, ring
      ensures Valid() && Abs() == Census(old(Abs()), rows)
      ensures old(Sound()) ==> Sound()
    {
      if Sound() {
        CausalSoundness.CensusKeeps(Abs(), rows);
      }
      if |rows| > TARGET_COUNT {
        Retire(Mapping);
        return;
      }
      var i := 0;
      while i < |rows|
        invariant i <= |rows| && CensusFault(ledgers, rows, i) == CensusFault(ledgers, rows, 0)
        invariant Valid() && Abs() == old(Abs())
      {
        var j := 0;
        while j < i
          invariant j <= i && forall k :: 0 <= k < j ==> rows[k].netId != rows[i].netId && rows[k].actor != rows[i].actor
          invariant Valid() && Abs() == old(Abs())
        {
          if rows[j].netId == rows[i].netId || rows[j].actor == rows[i].actor {
            assert Repeats(rows, i);
            Retire(Mapping);
            return;
          }
          j := j + 1;
        }
        assert !Repeats(rows, i);
        var k := FindById(rows[i].netId);
        if k == |ledgers| || !SameTarget(ledgers[k].identity, rows[i]) || rows[i].hp != ledgers[k].expected {
          assert !RowKnown(ledgers, rows[i]);
          Retire(UnknownDelta);
          return;
        }
        i := i + 1;
      }
      i := 0;
      while i < |ledgers|
        invariant i <= |ledgers|
        invariant forall k :: 0 <= k < i ==> ledgers[k].removed || Seen(ledgers[k], rows) || (ledgers[k].dead && ledgers[k].expected == 0)
        invariant Valid() && Abs() == old(Abs())
      {
        if !ledgers[i].removed && !Seen(ledgers[i], rows) && !(ledgers[i].dead && ledgers[i].expected == 0) {
          assert !Accounted(ledgers, rows);
          Retire(Mapping);
          return;
        }
        i := i + 1;
      }
    }
  }
}
