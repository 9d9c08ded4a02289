// When the enemy record lease admits (inject/src/EnemyRecordBinding.hpp): over every run, exactly the
// observations that are whole and continue what was admitted before, told from those alone.
module RecordProgress {
  import opened Common
  import opened RecordLease

  // An earlier admitted frame carried a death.
  predicate DeathAt(h: History, i: nat) { i < |h.admitted| && Deaths(h.admitted[i].host) != 0 }

  ghost predicate Terminal(h: History) { exists i: nat :: DeathAt(h, i) }

  // A lease that has issued a terminal frame has admitted its death.
  ghost predicate Recorded(h: History) { h.lease.terminalIssued ==> Terminal(h) }

  lemma StepRecords(review: Review, h: History, e: Event)
    requires Invariant(review, h) && Recorded(h)
    ensures Recorded(Step(review, h, e))
  {
    var n := Step(review, h, e);
    if n.lease.terminalIssued && e.Observe? {
      if n.admitted == h.admitted {
        var i: nat :| DeathAt(h, i);
        assert DeathAt(n, i);
      } else if h.lease.terminalIssued && !(ScopeValid(e.scope) && NewLoad(h.lease, e.scope)) {
        var i: nat :| DeathAt(h, i);
        assert n.admitted[i] == h.admitted[i];
        assert DeathAt(n, i);
      } else {
        assert DeathAt(n, |n.admitted| - 1);
      }
    } else if n.lease.terminalIssued {
      var i: nat :| DeathAt(h, i);
      assert DeathAt(n, i);
    }
  }

  lemma {:induction false} RunRecords(review: Review, h: History, es: seq<Event>)
    requires Invariant(review, h) && Recorded(h)
    ensures Invariant(review, Run(review, h, es)) && Recorded(Run(review, h, es))
    decreases |es|
  {
    if es != [] {
      StepHolds(review, h, es[0]);
      StepRecords(review, h, es[0]);
      RunRecords(review, Step(review, h, es[0]), es[1..]);
    }
  }

  // A later load and transition than the last admitted observation's, of a later epoch or another
  // session and host.
  predicate LaterLoad(last: Scope, s: Scope) {
    && 0 < (s.load - last.load) % U32_RANGE < 0x8000_0000 && 0 < (s.transition - last.transition) % U32_RANGE < 0x8000_0000
    && (0 < (s.epoch - last.epoch) % U32_RANGE < 0x8000_0000 || (s.generation != last.generation && s.host != last.host))
  }

  lemma AheadIff(a: u32, b: u32)
    ensures Ahead(a, b) <==> 0 < (a - b) % U32_RANGE < 0x8000_0000
  {
  }

  // Nothing was admitted since the last renewal, or this observation renews.
  predicate First(h: History, s: Scope) {
    h.admitted == [] || LaterLoad(h.admitted[|h.admitted| - 1].scope, s)
  }

  lemma FirstIff(review: Review, h: History, s: Scope)
    requires Invariant(review, h)
    ensures First(h, s) <==> h.admitted == [] || NewLoad(h.lease, s)
  {
    if h.admitted != [] {
      var last := h.admitted[|h.admitted| - 1].scope;
      AheadIff(s.load, last.load);
      AheadIff(s.transition, last.transition);
      AheadIff(s.epoch, last.epoch);
    }
  }

  // Everything about the session, room, load and host but the frame is as it was.
  predicate SamePlace(a: Scope, b: Scope) {
    && a.generation == b.generation && a.epoch == b.epoch && a.load == b.load && a.transition == b.transition
    && a.host == b.host && a.location == b.location
  }

  // The observation goes on from the last admitted one: the same place, the same or the next frame,
  // every key with the roots and the two ids it had, and no death in another frame.
  ghost predicate GoesOn(h: History, o: Observation)
    requires h.admitted != []
  {
    var last := h.admitted[|h.admitted| - 1];
    && SamePlace(o.scope, last.scope) && last.scope.frame <= o.scope.frame <= last.scope.frame + 1
    && SameBinding(last, o)
    && forall i: nat :: DeathAt(h, i) ==> h.admitted[i].scope.frame == o.scope.frame
  }

  lemma BindingKept(review: Review, o: Observation, l: Lease, s: Scope, ls: seq<Local>, hs: seq<Host>)
    requires Bound(review, o) && l.scope == o.scope && l.local == o.local && l.host == o.host
    requires SameBinding(o, Observation(s, ls, hs, Peers(ls, hs)))
    ensures forall i :: 0 <= i < |ls| ==> Kept(l, ls[i], PeerOf(ls[i], hs))
  {
    var b := Observation(s, ls, hs, Peers(ls, hs));
    forall i | 0 <= i < |ls| ensures Kept(l, ls[i], PeerOf(ls[i], hs)) {
      assert Appears(o, b, i);
      var j: nat :| j < |o.local| && SameRow(o, j, b, i);
      PeerFound(o.local[j], o.host);
      var k :| 0 <= k < |o.host| && Pairs(o.local[j], o.host[k]) && o.host[k].id == PeerOf(o.local[j], o.host);
      assert l.host[k].key == ls[i].key && l.host[k].id == PeerOf(ls[i], hs);
      assert l.local[j].key == ls[i].key && l.local[j].roots == ls[i].roots && l.local[j].id == ls[i].id;
    }
  }

  lemma GoesOnIff(review: Review, h: History, s: Scope, ls: seq<Local>, hs: seq<Host>)
    requires Invariant(review, h) && Recorded(h) && h.admitted != []
    ensures var l := h.lease;
            GoesOn(h, Observation(s, ls, hs, Peers(ls, hs)))
            <==> SameScope(s, l.scope) && (l.terminalIssued ==> s.frame == l.terminalFrame) && Continues(l, s, ls, hs)
  {
    var l, o := h.lease, Observation(s, ls, hs, Peers(ls, hs));
    var last := h.admitted[|h.admitted| - 1];
    if GoesOn(h, o) {
      BindingKept(review, last, l, s, ls, hs);
      if l.terminalIssued {
        var i: nat :| DeathAt(h, i);
      }
    }
    if SameScope(s, l.scope) && (l.terminalIssued ==> s.frame == l.terminalFrame) && Continues(l, s, ls, hs) {
      KeptBinding(review, last, l, s, ls, hs);
    }
  }

  // The living population, or, of an installed lease told of a terminal frame, one with one death.
  predicate DeathsAllowed(first: bool, terminal: bool, hs: seq<Host>) {
    Deaths(hs) == 0 || (!first && terminal && Deaths(hs) == 1)
  }

  ghost predicate Admissible(review: Review, h: History, e: Event)
    requires e.Observe?
  {
    && ScopeValid(e.scope) && e.complete && Exact(review, e.scope, e.local, e.host)
    && DeathsAllowed(First(h, e.scope), e.terminal, e.host)
    && (First(h, e.scope)
        || (!h.lease.poisoned && GoesOn(h, Observation(e.scope, e.local, e.host, Peers(e.local, e.host)))))
  }

  // What one step admits, as a suffix of the list that is not poisoned away.
  predicate Admits(review: Review, h: History, e: Event) {
    e.Observe? && Resolve(review, h.lease, e.scope, e.local, e.host, e.complete, e.terminal).1.Some?
  }

  lemma StepAdmitsIff(review: Review, h: History, e: Event)
    requires Invariant(review, h) && Recorded(h) && e.Observe?
    ensures Admits(review, h, e) <==> Admissible(review, h, e)
  {
    FirstIff(review, h, e.scope);
    if h.admitted != [] {
      GoesOnIff(review, h, e.scope, e.local, e.host);
    }
  }

  // Over every run: an observation is admitted, with its matched ids, exactly when it is whole and is
  // the first of its load or goes on from the last one, and nothing has poisoned the lease since.
  lemma AdmittedIff(review: Review, es: seq<Event>, e: Event)
    requires e.Observe?
    ensures var h := Run(review, History(Unused(), []), es);
            var n := Step(review, h, e);
            if Admissible(review, h, e) then
              n.admitted == (if First(h, e.scope) then [] else h.admitted)
                            + [Observation(e.scope, e.local, e.host, Peers(e.local, e.host))]
            else n.admitted == if ScopeValid(e.scope) && First(h, e.scope) then [] else h.admitted
  {
    StartHolds(review);
    RunRecords(review, History(Unused(), []), es);
    var h := Run(review, History(Unused(), []), es);
    StepAdmitsIff(review, h, e);
    FirstIff(review, h, e.scope);
    var (l, ids) := Resolve(review, h.lease, e.scope, e.local, e.host, e.complete, e.terminal);
    if ids.Some? {
      AdmittedCases(review, h.lease, e.scope, e.local, e.host, e.complete, e.terminal);
    }
  }

  // Over every run: the lease is poisoned exactly when something was admitted since the last renewal
  // and the last event since was an interruption or an observation that was not admitted.
  lemma PoisonedIff(review: Review, es: seq<Event>, e: Event)
    ensures var h := Run(review, History(Unused(), []), es);
            Step(review, h, e).lease.poisoned <==>
            h.admitted != [] && !(e.Observe? && (Admissible(review, h, e) || (ScopeValid(e.scope) && First(h, e.scope))))
  {
    StartHolds(review);
    RunRecords(review, History(Unused(), []), es);
    var h := Run(review, History(Unused(), []), es);
    if e.Observe? {
      StepAdmitsIff(review, h, e);
      FirstIff(review, h, e.scope);
      PoisonedStep(review, h, e);
    }
  }

  lemma PoisonedStep(review: Review, h: History, e: Event)
    requires Invariant(review, h) && e.Observe?
    ensures Step(review, h, e).lease.poisoned <==>
            h.admitted != [] && !Admits(review, h, e) && !(ScopeValid(e.scope) && NewLoad(h.lease, e.scope))
  {
    if Admits(review, h, e) {
      AdmittedCases(review, h.lease, e.scope, e.local, e.host, e.complete, e.terminal);
    }
  }
}
