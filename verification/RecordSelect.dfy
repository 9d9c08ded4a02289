// Choosing the population the lease is asked about (inject/src/EnemyRecordBinding.hpp,
// SelectPopulation): every row must be classified, and only the admitted ones are kept.
module RecordSelect {
  import opened Common
  import opened RecordLease

  // The reviewed exclusion table, outside this model, beside the reviewed record table.
  predicate Known(review: Review, excluded: Review, objectId: nat, key: Key) {
    review(objectId, key) || excluded(objectId, key)
  }

  predicate LocalSound(review: Review, excluded: Review, s: Scope, l: Local) {
    && l.key.location == s.location && l.roots.actor != 0 && l.roots.objentry != 0 && l.roots.status != 0
    && l.roots.controller != 0 && l.roots.record != 0 && l.id > 0
    && Known(review, excluded, l.roots.objectId, l.key)
  }

  predicate HostSound(review: Review, excluded: Review, s: Scope, h: Host) {
    h.key.location == s.location && 0 < h.id <= 65535 && Known(review, excluded, h.objectId, h.key)
  }

  predicate Unlike(a: Local, b: Local) {
    && a.key != b.key && a.id != b.id && a.roots.actor != b.roots.actor && a.roots.status != b.roots.status
    && a.roots.record != b.roots.record
  }

  predicate Separate(ls: seq<Local>) { forall i, j :: 0 <= j < i < |ls| ==> Unlike(ls[j], ls[i]) }

  function AdmittedLocals(review: Review, ls: seq<Local>): seq<Local> {
    if ls == [] then [] else
      var last := ls[|ls| - 1];
      AdmittedLocals(review, ls[..|ls| - 1]) + (if review(last.roots.objectId, last.key) then [last] else [])
  }

  function AdmittedHosts(review: Review, hs: seq<Host>): seq<Host> {
    if hs == [] then [] else
      var last := hs[|hs| - 1];
      AdmittedHosts(review, hs[..|hs| - 1]) + (if review(last.objectId, last.key) then [last] else [])
  }

  // No excluded row shares its controller with an admitted one.
  predicate NoAlias(excluded: Review, ls: seq<Local>, admitted: seq<Local>) {
    forall i, j :: 0 <= i < |ls| && 0 <= j < |admitted| && excluded(ls[i].roots.objectId, ls[i].key) ==>
      ls[i].roots.controller != admitted[j].roots.controller
  }

  predicate LocalsSelectable(review: Review, excluded: Review, s: Scope, ls: seq<Local>) {
    && (forall i :: 0 <= i < |ls| ==> LocalSound(review, excluded, s, ls[i])) && Separate(ls)
    && NoAlias(excluded, ls, AdmittedLocals(review, ls))
  }

  predicate HostsSelectable(review: Review, excluded: Review, s: Scope, hs: seq<Host>) {
    (forall j :: 0 <= j < |hs| ==> HostSound(review, excluded, s, hs[j])) && HostsApart(hs)
  }

  predicate Selectable(review: Review, excluded: Review, s: Scope, ls: seq<Local>, hs: seq<Host>) {
    && Population(s.location) != 0 && LocalsSelectable(review, excluded, s, ls) && HostsSelectable(review, excluded, s, hs)
    && |AdmittedLocals(review, ls)| == |AdmittedHosts(review, hs)| == Population(s.location)
  }

  // ---------------------------------------------------------------- what is kept

  lemma {:induction false} LocalsKept(review: Review, ls: seq<Local>)
    ensures forall l :: l in AdmittedLocals(review, ls) <==> l in ls && review(l.roots.objectId, l.key)
    decreases |ls|
  {
    if ls != [] {
      LocalsKept(review, ls[..|ls| - 1]);
      assert ls == ls[..|ls| - 1] + [ls[|ls| - 1]];
    }
  }

  lemma {:induction false} HostsKept(review: Review, hs: seq<Host>)
    ensures forall h :: h in AdmittedHosts(review, hs) <==> h in hs && review(h.objectId, h.key)
    decreases |hs|
  {
    if hs != [] {
      HostsKept(review, hs[..|hs| - 1]);
      assert hs == hs[..|hs| - 1] + [hs[|hs| - 1]];
    }
  }

  lemma {:induction false} KeptSeparate(review: Review, ls: seq<Local>)
    requires Separate(ls)
    ensures Separate(AdmittedLocals(review, ls))
    decreases |ls|
  {
    if ls != [] {
      var n := |ls| - 1;
      KeptSeparate(review, ls[..n]);
      LocalsKept(review, ls[..n]);
      forall l | l in AdmittedLocals(review, ls[..n]) ensures Unlike(l, ls[n]) {
        var i :| 0 <= i < n && ls[..n][i] == l;
        assert Unlike(ls[i], ls[n]);
      }
    }
  }

  lemma {:induction false} KeptApart(review: Review, hs: seq<Host>)
    requires HostsApart(hs)
    ensures HostsApart(AdmittedHosts(review, hs))
    decreases |hs|
  {
    if hs != [] {
      var n := |hs| - 1;
      KeptApart(review, hs[..n]);
      HostsKept(review, hs[..n]);
      forall h | h in AdmittedHosts(review, hs[..n]) ensures h.key != hs[n].key && h.id != hs[n].id {
        var i :| 0 <= i < n && hs[..n][i] == h;
        assert hs[i].key != hs[n].key;
      }
    }
  }

  lemma {:induction false} PairIsFound(l: Local, hs: seq<Host>, j: nat)
    requires j < |hs| && Pairs(l, hs[j]) && forall k :: 0 <= k < |hs| ==> hs[k].id > 0
    ensures PeerOf(l, hs) != 0
    decreases |hs|
  {
    if !Pairs(l, hs[|hs| - 1]) {
      PairIsFound(l, hs[..|hs| - 1], j);
    }
  }

  // Selection loses no match: an admitted row finds the same peer among all the host's rows as
  // among the kept ones.
  lemma {:induction false} SelectionKeepsPeers(review: Review, l: Local, hs: seq<Host>)
    requires review(l.roots.objectId, l.key)
    ensures PeerOf(l, AdmittedHosts(review, hs)) == PeerOf(l, hs)
    decreases |hs|
  {
    if hs != [] {
      var n := |hs| - 1;
      SelectionKeepsPeers(review, l, hs[..n]);
      var kept := AdmittedHosts(review, hs[..n]);
      if review(hs[n].objectId, hs[n].key) {
        assert AdmittedHosts(review, hs) == kept + [hs[n]];
        assert (kept + [hs[n]])[..|kept|] == kept;
      } else {
        assert AdmittedHosts(review, hs) == kept;
      }
    }
  }

  predicate Matched(l: Local, hs: seq<Host>) { exists j :: 0 <= j < |hs| && Pairs(l, hs[j]) }

  predicate Paired(ls: seq<Local>, hs: seq<Host>) { forall i :: 0 <= i < |ls| ==> Matched(ls[i], hs) }

  predicate Living(ls: seq<Local>) { forall i :: 0 <= i < |ls| ==> ls[i].living }

  predicate Found(ls: seq<Local>, hs: seq<Host>) { forall i :: 0 <= i < |ls| ==> PeerOf(ls[i], hs) != 0 }

  lemma PairedIff(ls: seq<Local>, hs: seq<Host>)
    requires forall k :: 0 <= k < |hs| ==> hs[k].id > 0
    ensures Paired(ls, hs) <==> Found(ls, hs)
  {
    if Paired(ls, hs) {
      forall i | 0 <= i < |ls| ensures PeerOf(ls[i], hs) != 0 {
        var j :| 0 <= j < |hs| && Pairs(ls[i], hs[j]);
        PairIsFound(ls[i], hs, j);
      }
    }
    if Found(ls, hs) {
      forall i | 0 <= i < |ls| ensures Matched(ls[i], hs) {
        PeerFound(ls[i], hs);
      }
    }
  }

  lemma KeptAreOk(review: Review, excluded: Review, s: Scope, ls: seq<Local>, hs: seq<Host>)
    requires Selectable(review, excluded, s, ls, hs)
    ensures var kept := AdmittedLocals(review, ls);
            LocalsApart(kept) && forall i :: 0 <= i < |kept| ==> (LocalOk(review, s, kept[i]) <==> kept[i].living)
    ensures var kept := AdmittedHosts(review, hs);
            HostsApart(kept) && forall j :: 0 <= j < |kept| ==> HostOk(review, s, kept[j])
  {
    KeptSeparate(review, ls);
    KeptApart(review, hs);
    LocalsKept(review, ls);
    HostsKept(review, hs);
    var kept := AdmittedLocals(review, ls);
    forall i, j | 0 <= i < j < |kept| ensures kept[i].key != kept[j].key && kept[i].roots.actor != kept[j].roots.actor {
      assert Unlike(kept[i], kept[j]);
    }
    forall i | 0 <= i < |kept| ensures LocalOk(review, s, kept[i]) <==> kept[i].living {
      assert kept[i] in ls;
    }
    var peers := AdmittedHosts(review, hs);
    forall j | 0 <= j < |peers| ensures HostOk(review, s, peers[j]) {
      assert peers[j] in hs;
    }
  }

  // A complete selection leaves the lease only two things to find out: that every kept row is
  // living and that each has a host row of its key and object.
  lemma SelectionIsExact(review: Review, excluded: Review, s: Scope, ls: seq<Local>, hs: seq<Host>)
    requires Selectable(review, excluded, s, ls, hs)
    ensures var (ks, ps) := (AdmittedLocals(review, ls), AdmittedHosts(review, hs));
            Exact(review, s, ks, ps) <==> Living(ks) && Paired(ks, ps)
  {
    KeptAreOk(review, excluded, s, ls, hs);
    PairedIff(AdmittedLocals(review, ls), AdmittedHosts(review, hs));
  }

  // So a first observation of a complete selection is admitted exactly when the kept rows are
  // living and paired, and no kept host row is dead.
  lemma SelectionIsAdmitted(review: Review, excluded: Review, s: Scope, ls: seq<Local>, hs: seq<Host>)
    requires ScopeValid(s) && Selectable(review, excluded, s, ls, hs)
    ensures var (ks, ps) := (AdmittedLocals(review, ls), AdmittedHosts(review, hs));
            Resolve(review, Unused(), s, ks, ps, true, false).1.Some? <==> Living(ks) && Paired(ks, ps) && Deaths(ps) == 0
  {
    SelectionIsExact(review, excluded, s, ls, hs);
  }

  // ---------------------------------------------------------------- the loops

  method SelectLocals(review: Review, excluded: Review, s: Scope, ls: seq<Local>) returns (ok: bool, kept: seq<Local>)
    ensures ok <==> (forall i :: 0 <= i < |ls| ==> LocalSound(review, excluded, s, ls[i])) && Separate(ls)
    ensures ok ==> kept == AdmittedLocals(review, ls)
  {
    kept := [];
    var i := 0;
    while i < |ls|
      invariant i <= |ls| && kept == AdmittedLocals(review, ls[..i])
      invariant forall k :: 0 <= k < i ==> LocalSound(review, excluded, s, ls[k])
      invariant forall k, m :: 0 <= m < k < i ==> Unlike(ls[m], ls[k])
    {
      if !LocalSound(review, excluded, s, ls[i]) {
        return false, [];
      }
      var j := 0;
      while j < i
        invariant j <= i && forall m :: 0 <= m < j ==> Unlike(ls[m], ls[i])
      {
        if !Unlike(ls[j], ls[i]) {
          return false, [];
        }
        j := j + 1;
      }
      assert ls[..i + 1][..i] == ls[..i];
      if review(ls[i].roots.objectId, ls[i].key) {
        kept := kept + [ls[i]];
      }
      i := i + 1;
    }
    assert ls[..i] == ls;
    return true, kept;
  }

  method CheckAliases(excluded: Review, ls: seq<Local>, kept: seq<Local>) returns (ok: bool)
    ensures ok <==> NoAlias(excluded, ls, kept)
  {
    var i := 0;
    while i < |ls|
      invariant i <= |ls| && NoAlias(excluded, ls[..i], kept)
    {
      if excluded(ls[i].roots.objectId, ls[i].key) {
        var j := 0;
        while j < |kept|
          invariant j <= |kept| && forall m :: 0 <= m < j ==> ls[i].roots.controller != kept[m].roots.controller
        {
          if ls[i].roots.controller == kept[j].roots.controller {
            return false;
          }
          j := j + 1;
        }
      }
      i := i + 1;
    }
    assert ls[..i] == ls;
    return true;
  }

  method SelectHosts(review: Review, excluded: Review, s: Scope, hs: seq<Host>) returns (ok: bool, kept: seq<Host>)
    ensures ok <==> HostsSelectable(review, excluded, s, hs)
    ensures ok ==> kept == AdmittedHosts(review, hs)
  {
    kept := [];
    var i := 0;
    while i < |hs|
      invariant i <= |hs| && kept == AdmittedHosts(review, hs[..i])
      invariant forall k :: 0 <= k < i ==> HostSound(review, excluded, s, hs[k])
      invariant HostsApart(hs[..i])
    {
      if !HostSound(review, excluded, s, hs[i]) {
        return false, [];
      }
      var j := 0;
      while j < i
        invariant j <= i && forall m :: 0 <= m < j ==> hs[m].key != hs[i].key && hs[m].id != hs[i].id
      {
        if hs[j].key == hs[i].key || hs[j].id == hs[i].id {
          return false, [];
        }
        j := j + 1;
      }
      assert hs[..i + 1][..i] == hs[..i];
      if review(hs[i].objectId, hs[i].key) {
        kept := kept + [hs[i]];
      }
      i := i + 1;
    }
    assert hs[..i] == hs;
    return true, kept;
  }

  method SelectPopulation(review: Review, excluded: Review, s: Scope, ls: seq<Local>, hs: seq<Host>)
    returns (chosen: Option<(seq<Local>, seq<Host>)>)
    ensures chosen.Some? <==> Selectable(review, excluded, s, ls, hs)
    ensures chosen.Some? ==> chosen.value == (AdmittedLocals(review, ls), AdmittedHosts(review, hs))
  {
    if Population(s.location) == 0 {
      return None;
    }
    var soundLocals, locals := SelectLocals(review, excluded, s, ls);
    if !soundLocals {
      return None;
    }
    var apart := CheckAliases(excluded, ls, locals);
    if !apart {
      return None;
    }
    var soundHosts, hosts := SelectHosts(review, excluded, s, hs);
    if !soundHosts || |locals| != Population(s.location) || |hosts| != Population(s.location) {
      return None;
    }
    return Some((locals, hosts));
  }
}
