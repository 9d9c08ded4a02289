// The enemy record lease (inject/src/EnemyRecordBinding.hpp): an exact matching of local rows to
// host rows, stable over a gapless run of frames, and held for good after any discontinuity.
module RecordLease {
  import opened Common

  datatype Location = Location(world: u16, room: u16, door: u16, mapProgram: u16, battleProgram: u16, eventProgram: u16)

  // A record key within a location.
  datatype Key = Key(location: Location, record: nat)

  datatype Scope = Scope(generation: u32, epoch: u32, load: u32, transition: u32, frame: u32, host: u64, location: Location)

  datatype Roots = Roots(actor: nat, objentry: nat, status: nat, controller: nat, record: nat, objectId: nat)

  datatype Local = Local(roots: Roots, key: Key, id: int, living: bool)

  datatype Host = Host(key: Key, id: int, objectId: nat, dead: bool)

  datatype Lease = Lease(
    installed: bool, poisoned: bool, terminalIssued: bool, terminalFrame: u32, scope: Scope, local: seq<Local>, host: seq<Host>)

  const NOWHERE := Scope(0, 0, 0, 0, 0, 0, Location(0, 0, 0, 0, 0, 0))

  function Unused(): Lease { Lease(false, false, false, 0, NOWHERE, [], []) }

  // How many admitted records a reviewed location has.
  function Population(l: Location): nat {
    if l == Location(18, 6, 0, 0, 2, 32767) then 3 else if l == Location(7, 0, 0, 0, 2, 32767) then 5 else 0
  }

  // The reviewed record table, outside this model.
  type Review = (nat, Key) -> bool

  // Serial a is after b, modulo 2^32.
  predicate Ahead(a: u32, b: u32) { 0 < Minus(a, b, U32_RANGE) < 0x8000_0000 }

  predicate ScopeValid(s: Scope) {
    s.generation != 0 && s.epoch != 0 && s.load != 0 && s.transition != 0 && s.host != 0 && Population(s.location) != 0
  }

  // A later load and transition, of a later epoch or another session and host.
  predicate NewLoad(l: Lease, s: Scope) {
    l.installed && Ahead(s.load, l.scope.load) && Ahead(s.transition, l.scope.transition)
    && (Ahead(s.epoch, l.scope.epoch) || (s.generation != l.scope.generation && s.host != l.scope.host))
  }

  predicate SameScope(a: Scope, b: Scope) { a.(frame := 0) == b.(frame := 0) }

  function Deaths(hosts: seq<Host>): nat {
    if hosts == [] then 0 else (if hosts[0].dead then 1 else 0) + Deaths(hosts[1..])
  }

  predicate LocalOk(review: Review, s: Scope, l: Local) {
    && l.living && l.roots.actor != 0 && l.roots.objentry != 0 && l.roots.status != 0 && l.roots.controller != 0
    && l.roots.record != 0 && l.key.location == s.location && review(l.roots.objectId, l.key)
  }

  predicate HostOk(review: Review, s: Scope, h: Host) {
    0 < h.id <= 65535 && h.key.location == s.location && review(h.objectId, h.key)
  }

  predicate LocalsApart(ls: seq<Local>) {
    forall i, j :: 0 <= i < j < |ls| ==> ls[i].key != ls[j].key && ls[i].roots.actor != ls[j].roots.actor
  }

  predicate HostsApart(hs: seq<Host>) {
    forall i, j :: 0 <= i < j < |hs| ==> hs[i].key != hs[j].key && hs[i].id != hs[j].id
  }

  predicate Pairs(l: Local, h: Host) { h.key == l.key && h.objectId == l.roots.objectId }

  // The host id of a local row, or 0.
  function PeerOf(l: Local, hs: seq<Host>): int {
    if hs == [] then 0
    else if Pairs(l, hs[|hs| - 1]) then hs[|hs| - 1].id
    else PeerOf(l, hs[..|hs| - 1])
  }

  function Peers(ls: seq<Local>, hs: seq<Host>): (ids: seq<int>)
    ensures |ids| == |ls| && forall i :: 0 <= i < |ids| ==> ids[i] == PeerOf(ls[i], hs)
  {
    seq(|ls|, i requires 0 <= i < |ls| => PeerOf(ls[i], hs))
  }

  // A complete exact population: every row reviewed, distinct, and matched by id.
  predicate Exact(review: Review, s: Scope, ls: seq<Local>, hs: seq<Host>) {
    && |ls| == |hs| == Population(s.location)
    && (forall i :: 0 <= i < |ls| ==> LocalOk(review, s, ls[i])) && LocalsApart(ls)
    && (forall j :: 0 <= j < |hs| ==> HostOk(review, s, hs[j])) && HostsApart(hs)
    && forall i :: 0 <= i < |ls| ==> PeerOf(ls[i], hs) != 0
  }

  // The row was there before, with the same native roots and both ids.
  predicate Kept(l: Lease, row: Local, peer: int) {
    (exists i :: 0 <= i < |l.local| && l.local[i].key == row.key && l.local[i].roots == row.roots && l.local[i].id == row.id)
    && exists j :: 0 <= j < |l.host| && l.host[j].key == row.key && l.host[j].id == peer
  }

  predicate Continues(l: Lease, s: Scope, ls: seq<Local>, hs: seq<Host>) {
    && l.scope.frame <= s.frame <= l.scope.frame + 1
    && forall i :: 0 <= i < |ls| ==> Kept(l, ls[i], PeerOf(ls[i], hs))
  }

  function Fail(l: Lease): (Lease, Option<seq<int>>) { (if l.installed then l.(poisoned := true) else l, None) }

  // One observation: the matched host ids, or nothing and, once installed, a lasting refusal.
  function Resolve(review: Review, was: Lease, s: Scope, ls: seq<Local>, hs: seq<Host>, complete: bool, terminal: bool)
    : (Lease, Option<seq<int>>)
  {
    if !ScopeValid(s) then Fail(was)
    else
      var l := if NewLoad(was, s) then was.(installed := false, poisoned := false, terminalIssued := false, local := [], host := [])
               else was;
      if l.installed && !SameScope(s, l.scope) then Fail(l)
      else if l.terminalIssued && s.frame != l.terminalFrame then Fail(l)
      else if l.poisoned then (l, None)
      else if !complete || |ls| != Population(s.location) || |hs| != Population(s.location) then Fail(l)
      else if Deaths(hs) != 0 && (!terminal || !l.installed || Deaths(hs) != 1) then Fail(l)
      else if !Exact(review, s, ls, hs) then Fail(l)
      else if l.installed && !Continues(l, s, ls, hs) then Fail(l)
      else
        (Lease(true, false, l.terminalIssued || Deaths(hs) != 0, if Deaths(hs) != 0 then s.frame else l.terminalFrame, s, ls, hs),
         Some(Peers(ls, hs)))
  }

  function Interrupt(l: Lease): Lease { if l.installed then l.(poisoned := true) else l }

  // ---------------------------------------------------------------- the matching is exact

  lemma {:induction false} PeerFound(l: Local, hs: seq<Host>)
    requires PeerOf(l, hs) != 0
    ensures exists j :: 0 <= j < |hs| && Pairs(l, hs[j]) && hs[j].id == PeerOf(l, hs)
    decreases |hs|
  {
    if !Pairs(l, hs[|hs| - 1]) {
      PeerFound(l, hs[..|hs| - 1]);
    } else {
      assert hs[|hs| - 1].id == PeerOf(l, hs);
    }
  }

  function LocalKeys(ls: seq<Local>): set<Key> { set i | 0 <= i < |ls| :: ls[i].key }
  function HostKeys(hs: seq<Host>): set<Key> { set i | 0 <= i < |hs| :: hs[i].key }

  lemma {:induction false} LocalKeyCount(ls: seq<Local>)
    requires LocalsApart(ls)
    ensures |LocalKeys(ls)| == |ls|
    decreases |ls|
  {
    if ls != [] {
      var n := |ls| - 1;
      LocalKeyCount(ls[..n]);
      assert LocalKeys(ls) == LocalKeys(ls[..n]) + {ls[n].key};
      forall k | k in LocalKeys(ls[..n]) ensures k != ls[n].key {
      }
    } else {
      assert LocalKeys(ls) == {};
    }
  }

  lemma {:induction false} HostKeyCount(hs: seq<Host>)
    requires HostsApart(hs)
    ensures |HostKeys(hs)| == |hs|
    decreases |hs|
  {
    if hs != [] {
      var n := |hs| - 1;
      HostKeyCount(hs[..n]);
      assert HostKeys(hs) == HostKeys(hs[..n]) + {hs[n].key};
      forall k | k in HostKeys(hs[..n]) ensures k != hs[n].key {
      }
    } else {
      assert HostKeys(hs) == {};
    }
  }

  // An exact population is a bijection: each local row has exactly one host row of its key and
  // object, whose id it is given, and each host row is some local row's.
  lemma ExactIsBijection(review: Review, s: Scope, ls: seq<Local>, hs: seq<Host>)
    requires Exact(review, s, ls, hs)
    ensures forall i :: 0 <= i < |ls| ==>
              exists j :: 0 <= j < |hs| && Pairs(ls[i], hs[j]) && hs[j].id == Peers(ls, hs)[i]
                && forall k :: 0 <= k < |hs| && hs[k].key == ls[i].key ==> k == j
    ensures forall j :: 0 <= j < |hs| ==> exists i :: 0 <= i < |ls| && Pairs(ls[i], hs[j]) && Peers(ls, hs)[i] == hs[j].id
    ensures forall i, k :: 0 <= i < k < |ls| ==> Peers(ls, hs)[i] != Peers(ls, hs)[k]
  {
    forall i | 0 <= i < |ls|
      ensures exists j :: 0 <= j < |hs| && Pairs(ls[i], hs[j]) && hs[j].id == PeerOf(ls[i], hs)
                && forall k :: 0 <= k < |hs| && hs[k].key == ls[i].key ==> k == j
    {
      PeerFound(ls[i], hs);
      var j :| 0 <= j < |hs| && Pairs(ls[i], hs[j]) && hs[j].id == PeerOf(ls[i], hs);
      assert forall k :: 0 <= k < |hs| && hs[k].key == ls[i].key ==> k == j;
    }
    LocalKeyCount(ls);
    HostKeyCount(hs);
    assert LocalKeys(ls) <= HostKeys(hs);
    SubsetSameSize(LocalKeys(ls), HostKeys(hs));
    forall j | 0 <= j < |hs|
      ensures exists i :: 0 <= i < |ls| && Pairs(ls[i], hs[j]) && Peers(ls, hs)[i] == hs[j].id
    {
      assert hs[j].key in LocalKeys(ls);
      var i :| 0 <= i < |ls| && ls[i].key == hs[j].key;
      assert Pairs(ls[i], hs[j]);
    }
    forall i, k | 0 <= i < k < |ls| ensures Peers(ls, hs)[i] != Peers(ls, hs)[k] {
      PeersDiffer(ls[i], ls[k], hs);
    }
  }

  lemma PeersDiffer(a: Local, b: Local, hs: seq<Host>)
    requires HostsApart(hs) && a.key != b.key && PeerOf(a, hs) != 0 && PeerOf(b, hs) != 0
    ensures PeerOf(a, hs) != PeerOf(b, hs)
  {
    PeerFound(a, hs);
    PeerFound(b, hs);
    var i :| 0 <= i < |hs| && Pairs(a, hs[i]) && hs[i].id == PeerOf(a, hs);
    var j :| 0 <= j < |hs| && Pairs(b, hs[j]) && hs[j].id == PeerOf(b, hs);
    assert i != j;
  }

  // ---------------------------------------------------------------- runs

  datatype Observation = Observation(scope: Scope, local: seq<Local>, host: seq<Host>, ids: seq<int>)

  // The lease with what it has admitted since it was last installed.
  datatype History = History(lease: Lease, admitted: seq<Observation>)

  datatype Event =
    | Observe(scope: Scope, local: seq<Local>, host: seq<Host>, complete: bool, terminal: bool)
    | Interrupted

  function Step(review: Review, h: History, e: Event): History {
    match e
    case Interrupted => h.(lease := Interrupt(h.lease))
    case Observe(s, ls, hs, complete, terminal) =>
      var (l, ids) := Resolve(review, h.lease, s, ls, hs, complete, terminal);
      var kept := if ScopeValid(s) && NewLoad(h.lease, s) then [] else h.admitted;
      History(l, if ids.Some? then kept + [Observation(s, ls, hs, ids.value)] else kept)
  }

  function Run(review: Review, h: History, es: seq<Event>): History
    decreases |es|
  {
    if es == [] then h else Run(review, Step(review, h, es[0]), es[1..])
  }

  // Row i of b is row j of a: the same key, native roots, local id and host id.
  predicate SameRow(a: Observation, j: nat, b: Observation, i: nat) {
    && j < |a.local| == |a.ids| && i < |b.local| == |b.ids|
    && a.local[j].key == b.local[i].key && a.local[j].roots == b.local[i].roots && a.local[j].id == b.local[i].id
    && a.ids[j] == b.ids[i]
  }

  predicate Appears(a: Observation, b: Observation, i: nat) { exists j: nat :: j < |a.local| && SameRow(a, j, b, i) }

  predicate SameBinding(a: Observation, b: Observation) { forall i: nat :: i < |b.local| ==> Appears(a, b, i) }

  predicate Bound(review: Review, o: Observation) {
    Exact(review, o.scope, o.local, o.host) && o.ids == Peers(o.local, o.host)
  }

  predicate Invariant(review: Review, h: History) {
    && (h.lease.installed <==> h.admitted != [])
    && (h.lease.poisoned || h.lease.terminalIssued ==> h.lease.installed)
    && (forall i :: 0 <= i < |h.admitted| ==> Bound(review, h.admitted[i]) && SameScope(h.admitted[i].scope, h.lease.scope))
    && (h.admitted != [] ==>
          var o := h.admitted[|h.admitted| - 1];
          h.lease.scope == o.scope && h.lease.local == o.local && h.lease.host == o.host)
    && (forall i :: 0 <= i < |h.admitted| - 1 ==>
          h.admitted[i].scope.frame <= h.admitted[i + 1].scope.frame <= h.admitted[i].scope.frame + 1
          && SameBinding(h.admitted[i], h.admitted[i + 1]))
    && (forall i :: 0 <= i < |h.admitted| && Deaths(h.admitted[i].host) != 0 ==>
          h.lease.terminalIssued && h.admitted[i].scope.frame == h.lease.terminalFrame)
    && (h.lease.terminalIssued ==> h.lease.scope.frame == h.lease.terminalFrame)
  }

  lemma StartHolds(review: Review)
    ensures Invariant(review, History(Unused(), []))
  {
  }

  lemma KeptBinding(review: Review, o: Observation, l: Lease, s: Scope, ls: seq<Local>, hs: seq<Host>)
    requires Bound(review, o) && l.scope == o.scope && l.local == o.local && l.host == o.host
    requires Continues(l, s, ls, hs)
    ensures SameBinding(o, Observation(s, ls, hs, Peers(ls, hs)))
  {
    var b := Observation(s, ls, hs, Peers(ls, hs));
    forall i: nat | i < |b.local| ensures Appears(o, b, i) {
      assert Kept(l, ls[i], PeerOf(ls[i], hs));
      var j :| 0 <= j < |o.local| && o.local[j].key == ls[i].key && o.local[j].roots == ls[i].roots && o.local[j].id == ls[i].id;
      var k :| 0 <= k < |o.host| && o.host[k].key == ls[i].key && o.host[k].id == PeerOf(ls[i], hs);
      PeerFound(o.local[j], o.host);
      var m :| 0 <= m < |o.host| && Pairs(o.local[j], o.host[m]) && o.host[m].id == PeerOf(o.local[j], o.host);
      assert m == k;
      assert SameRow(o, j, b, i);
    }
  }

  // An admitted observation continues the installation, or begins one.
  lemma AdmittedCases(review: Review, was: Lease, s: Scope, ls: seq<Local>, hs: seq<Host>, complete: bool, terminal: bool)
    requires Resolve(review, was, s, ls, hs, complete, terminal).1.Some? && (was.terminalIssued ==> was.installed)
    ensures var (l, ids) := Resolve(review, was, s, ls, hs, complete, terminal);
            && Exact(review, s, ls, hs) && ids.value == Peers(ls, hs)
            && l.installed && !l.poisoned && l.scope == s && l.local == ls && l.host == hs
            && (if was.installed && !NewLoad(was, s) then
                  && !was.poisoned && SameScope(s, was.scope) && Continues(was, s, ls, hs)
                  && (was.terminalIssued ==> s.frame == was.terminalFrame)
                  && l.terminalIssued == (was.terminalIssued || Deaths(hs) != 0)
                  && (l.terminalIssued ==> s.frame == l.terminalFrame)
                  && (was.terminalIssued ==> l.terminalFrame == was.terminalFrame)
                else !l.terminalIssued && Deaths(hs) == 0)
  {
  }

  lemma RefusedCases(review: Review, was: Lease, s: Scope, ls: seq<Local>, hs: seq<Host>, complete: bool, terminal: bool)
    requires Resolve(review, was, s, ls, hs, complete, terminal).1.None?
    ensures var l := Resolve(review, was, s, ls, hs, complete, terminal).0;
            if ScopeValid(s) && NewLoad(was, s) then !l.installed && !l.poisoned && !l.terminalIssued
            else l == was || (was.installed && l == was.(poisoned := true))
  {
  }

  lemma ResolveHolds(review: Review, h: History, s: Scope, ls: seq<Local>, hs: seq<Host>, complete: bool, terminal: bool)
    requires Invariant(review, h)
    ensures Invariant(review, Step(review, h, Observe(s, ls, hs, complete, terminal)))
  {
    var (l, ids) := Resolve(review, h.lease, s, ls, hs, complete, terminal);
    if ids.Some? {
      AdmittedCases(review, h.lease, s, ls, hs, complete, terminal);
      var o := Observation(s, ls, hs, ids.value);
      assert Bound(review, o);
      if h.lease.installed && !NewLoad(h.lease, s) {
        ContinuedHolds(review, h, l, o);
      } else {
        assert h.lease.installed || h.admitted == [];
      }
    } else {
      RefusedCases(review, h.lease, s, ls, hs, complete, terminal);
    }
  }

  lemma ContinuedHolds(review: Review, h: History, l: Lease, o: Observation)
    requires Invariant(review, h) && h.lease.installed && Bound(review, o) && SameScope(o.scope, h.lease.scope)
    requires Continues(h.lease, o.scope, o.local, o.host)
    requires l.installed && !l.poisoned && l.scope == o.scope && l.local == o.local && l.host == o.host
    requires l.terminalIssued == (h.lease.terminalIssued || Deaths(o.host) != 0)
    requires (l.terminalIssued ==> o.scope.frame == l.terminalFrame)
    requires h.lease.terminalIssued ==> l.terminalFrame == h.lease.terminalFrame
    ensures Invariant(review, History(l, h.admitted + [o]))
  {
    var more := h.admitted + [o];
    var last := h.admitted[|h.admitted| - 1];
    KeptBinding(review, last, h.lease, o.scope, o.local, o.host);
    assert o.ids == Peers(o.local, o.host);
    assert o == Observation(o.scope, o.local, o.host, Peers(o.local, o.host));
    forall i | 0 <= i < |more| - 1
      ensures more[i].scope.frame <= more[i + 1].scope.frame <= more[i].scope.frame + 1 && SameBinding(more[i], more[i + 1])
    {
      if i < |h.admitted| - 1 {
        assert more[i] == h.admitted[i] && more[i + 1] == h.admitted[i + 1];
      } else {
        assert more[i] == last && more[i + 1] == o;
      }
    }
    forall i | 0 <= i < |more| ensures Bound(review, more[i]) && SameScope(more[i].scope, l.scope) {
      if i < |h.admitted| {
        assert more[i] == h.admitted[i];
      }
    }
  }

  lemma StepHolds(review: Review, h: History, e: Event)
    requires Invariant(review, h)
    ensures Invariant(review, Step(review, h, e))
  {
    match e
    case Interrupted =>
    case Observe(s, ls, hs, complete, terminal) => ResolveHolds(review, h, s, ls, hs, complete, terminal);
  }

  lemma {:induction false} RunHolds(review: Review, h: History, es: seq<Event>)
    requires Invariant(review, h)
    ensures Invariant(review, Run(review, h, es))
    decreases |es|
  {
    if es != [] {
      StepHolds(review, h, es[0]);
      RunHolds(review, Step(review, h, es[0]), es[1..]);
    }
  }

  // ---------------------------------------------------------------- what every run guarantees

  lemma SameBindingChains(a: Observation, b: Observation, c: Observation)
    requires SameBinding(a, b) && SameBinding(b, c)
    ensures SameBinding(a, c)
  {
    forall i: nat | i < |c.local| ensures Appears(a, c, i) {
      assert Appears(b, c, i);
      var k: nat :| k < |b.local| && SameRow(b, k, c, i);
      assert Appears(a, b, k);
      var j: nat :| j < |a.local| && SameRow(a, j, b, k);
      assert SameRow(a, j, c, i);
    }
  }

  // Within one installation, what a key stands for never changes.
  lemma {:induction false} BindingIsStable(review: Review, h: History, i: nat, j: nat)
    requires Invariant(review, h) && i < j < |h.admitted|
    ensures SameBinding(h.admitted[i], h.admitted[j])
    decreases j
  {
    assert SameBinding(h.admitted[j - 1], h.admitted[j]);
    if i < j - 1 {
      BindingIsStable(review, h, i, j - 1);
      SameBindingChains(h.admitted[i], h.admitted[j - 1], h.admitted[j]);
    }
  }

  // Every admitted observation is a bijection, its keys keep their meaning, and no frame between
  // two admitted ones was skipped.
  lemma AdmittedIsExact(review: Review, es: seq<Event>, i: nat, j: nat)
    requires i < j < |Run(review, History(Unused(), []), es).admitted|
    ensures var h := Run(review, History(Unused(), []), es);
            && Bound(review, h.admitted[i]) && Bound(review, h.admitted[j])
            && SameBinding(h.admitted[i], h.admitted[j])
            && h.admitted[i].scope.frame <= h.admitted[j].scope.frame <= h.admitted[i].scope.frame + (j - i)
  {
    StartHolds(review);
    RunHolds(review, History(Unused(), []), es);
    var h := Run(review, History(Unused(), []), es);
    BindingIsStable(review, h, i, j);
    FramesGapless(review, h, i, j);
  }

  lemma {:induction false} FramesGapless(review: Review, h: History, i: nat, j: nat)
    requires Invariant(review, h) && i < j < |h.admitted|
    ensures h.admitted[i].scope.frame <= h.admitted[j].scope.frame <= h.admitted[i].scope.frame + (j - i)
    decreases j
  {
    assert h.admitted[j - 1].scope.frame <= h.admitted[j - 1 + 1].scope.frame <= h.admitted[j - 1].scope.frame + 1;
    if i < j - 1 {
      FramesGapless(review, h, i, j - 1);
    }
  }

  // At most one frame of an installation carries a death.
  lemma OneDeathFrame(review: Review, es: seq<Event>, i: nat, j: nat)
    requires var h := Run(review, History(Unused(), []), es);
             i < |h.admitted| && j < |h.admitted| && Deaths(h.admitted[i].host) != 0 && Deaths(h.admitted[j].host) != 0
    ensures var h := Run(review, History(Unused(), []), es); h.admitted[i].scope.frame == h.admitted[j].scope.frame
  {
    StartHolds(review);
    RunHolds(review, History(Unused(), []), es);
  }

  predicate Renews(h: History, e: Event) { e.Observe? && ScopeValid(e.scope) && NewLoad(h.lease, e.scope) }

  // Until a newer load is observed.
  predicate NoRenewal(review: Review, h: History, es: seq<Event>)
    decreases |es|
  {
    es != [] ==> !Renews(h, es[0]) && NoRenewal(review, Step(review, h, es[0]), es[1..])
  }

  // After poisoning nothing is admitted before a newer load and transition.
  lemma {:induction false} PoisonHolds(review: Review, h: History, es: seq<Event>)
    requires Invariant(review, h) && h.lease.poisoned && NoRenewal(review, h, es)
    ensures Run(review, h, es).lease.poisoned && Run(review, h, es).admitted == h.admitted
    decreases |es|
  {
    if es != [] {
      StepHolds(review, h, es[0]);
      PoisonHolds(review, Step(review, h, es[0]), es[1..]);
    }
  }

  // Any refusal after installation poisons: what was admitted before and after it cannot belong to
  // one installation.
  lemma RefusalPoisons(review: Review, h: History, s: Scope, ls: seq<Local>, hs: seq<Host>, complete: bool, terminal: bool)
    requires Invariant(review, h) && h.lease.installed && !Renews(h, Observe(s, ls, hs, complete, terminal))
    requires Resolve(review, h.lease, s, ls, hs, complete, terminal).1.None?
    ensures Resolve(review, h.lease, s, ls, hs, complete, terminal).0.poisoned
  {
  }

  // ---------------------------------------------------------------- the object

  lemma {:induction false} NoneDead(hs: seq<Host>)
    requires Deaths(hs) == 0
    ensures forall j :: 0 <= j < |hs| ==> !hs[j].dead
    decreases |hs|
  {
    if hs != [] {
      NoneDead(hs[1..]);
      forall j | 0 <= j < |hs| ensures !hs[j].dead {
        if j > 0 {
          assert hs[j] == hs[1..][j - 1];
        }
      }
    }
  }

  // The inner scan: every host row is sound and distinct, and the row's peer is found.
  method FindPeer(review: Review, s: Scope, l: Local, hs: seq<Host>, terminal: bool) returns (id: Option<int>)
    requires !terminal ==> Deaths(hs) == 0
    ensures id.Some? <==> (forall j :: 0 <= j < |hs| ==> HostOk(review, s, hs[j])) && HostsApart(hs) && PeerOf(l, hs) != 0
    ensures id.Some? ==> id.value == PeerOf(l, hs)
  {
    if !terminal {
      NoneDead(hs);
    }
    var found := 0;
    var j := 0;
    while j < |hs|
      invariant j <= |hs| && found == PeerOf(l, hs[..j]) && HostsApart(hs[..j])
      invariant forall k :: 0 <= k < j ==> HostOk(review, s, hs[k])
    {
      var h := hs[j];
      if (!terminal && h.dead) || h.id <= 0 || h.id > 65535 || h.key.location != s.location || !review(h.objectId, h.key) {
        return None;
      }
      var k := 0;
      while k < j
        invariant k <= j && forall m :: 0 <= m < k ==> hs[m].key != h.key && hs[m].id != h.id
      {
        if hs[k].key == h.key || hs[k].id == h.id {
          return None;
        }
        k := k + 1;
      }
      assert hs[..j + 1][..j] == hs[..j];
      if Pairs(l, h) {
        found := h.id;
      }
      j := j + 1;
    }
    assert hs[..j] == hs;
    return if found == 0 then None else Some(found);
  }

  method Match(review: Review, s: Scope, ls: seq<Local>, hs: seq<Host>, terminal: bool) returns (ids: Option<seq<int>>)
    requires |ls| == |hs| == Population(s.location) > 0 && (!terminal ==> Deaths(hs) == 0)
    ensures ids.Some? <==> Exact(review, s, ls, hs)
    ensures ids.Some? ==> ids.value == Peers(ls, hs)
  {
    var got: seq<int> := [];
    var i := 0;
    while i < |ls|
      invariant i <= |ls| && |got| == i && LocalsApart(ls[..i])
      invariant forall k :: 0 <= k < i ==> LocalOk(review, s, ls[k]) && PeerOf(ls[k], hs) != 0 && got[k] == PeerOf(ls[k], hs)
      invariant i > 0 ==> (forall j :: 0 <= j < |hs| ==> HostOk(review, s, hs[j])) && HostsApart(hs)
    {
      if !LocalOk(review, s, ls[i]) {
        return None;
      }
      var j := 0;
      while j < i
        invariant j <= i && forall m :: 0 <= m < j ==> ls[m].key != ls[i].key && ls[m].roots.actor != ls[i].roots.actor
      {
        if ls[j].key == ls[i].key || ls[j].roots.actor == ls[i].roots.actor {
          return None;
        }
        j := j + 1;
      }
      var id := FindPeer(review, s, ls[i], hs, terminal);
      if id.None? {
        return None;
      }
      got := got + [id.value];
      i := i + 1;
    }
    assert ls[..i] == ls;
    return Some(got);
  }

  class Holder {
    var scope: Scope
    var local: seq<Local>
    var host: seq<Host>
    var installed: bool
    var poisoned: bool
    var terminalIssued: bool
    var terminalFrame: u32

    function Abs(): Lease
      reads this
    {
      Lease(installed, poisoned, terminalIssued, terminalFrame, scope, local, host)
    }

    constructor ()
      ensures Abs() == Unused()
    {
      scope, local, host := NOWHERE, [], [];
      installed, poisoned, terminalIssued, terminalFrame := false, false, false, 0;
    }

    method Hold()
      modifies this
      ensures Abs() == Fail(old(Abs())).0
    {
      if installed {
        poisoned := true;
      }
    }

    method Observe(review: Review, s: Scope, ls: seq<Local>, hs: seq<Host>, complete: bool, terminal: bool)
      returns (ids: Option<seq<int>>)
      modifies this
      ensures (Abs(), ids) == Resolve(review, old(Abs()), s, ls, hs, complete, terminal)
    {
      if !ScopeValid(s) {
        Hold();
        return None;
      }
      if NewLoad(Abs(), s) {
        installed, poisoned, terminalIssued := false, false, false;
        local, host := [], [];
      }
      if (installed && !SameScope(s, scope)) || (terminalIssued && s.frame != terminalFrame) {
        Hold();
        return None;
      }
      if poisoned {
        return None;
      }
      if !complete || |ls| != Population(s.location) || |hs| != Population(s.location) {
        Hold();
        return None;
      }
      var deaths := Deaths(hs);
      if deaths != 0 && (!terminal || !installed || deaths != 1) {
        Hold();
        return None;
      }
      ids := Match(review, s, ls, hs, terminal);
      if ids.None? || (installed && !Continues(Abs(), s, ls, hs)) {
        Hold();
        return None;
      }
      if deaths != 0 {
        terminalIssued, terminalFrame := true, s.frame;
      }
      local, host, scope, installed := ls, hs, s, true;
    }
  }
}
