// The other direction of the fingerprint's promise: equal hashed bytes come only from equal native
// states, so two snapshots share a fingerprint exactly when they agree (SHA-256 aside).
module FingerprintExact {
  import opened Common
  import opened Bytes
  import opened Snapshot
  import opened SnapshotCodec
  import opened Fingerprint

  // ---------------------------------------------------------------- cutting equal bytes

  lemma CutEqual(a: seq<byte>, b: seq<byte>, c: seq<byte>, d: seq<byte>)
    requires a + b == c + d && |a| == |c|
    ensures a == c && b == d
  {
    assert a == (a + b)[..|a|] && c == (c + d)[..|a|];
    assert b == (a + b)[|a|..] && d == (c + d)[|a|..];
  }

  lemma RecordEqual(ws: seq<nat>, vs: seq<nat>, us: seq<nat>, b: seq<byte>, c: seq<byte>)
    requires Fits(ws, vs) && Fits(ws, us) && PutAll(ws, vs) + b == PutAll(ws, us) + c
    ensures vs == us && b == c
  {
    GetAllPutAll(ws, vs, b);
    GetAllPutAll(ws, us, c);
  }

  // ---------------------------------------------------------------- progress entries

  predicate EntriesFit(m: map<nat, byte>, offsets: seq<nat>) {
    forall i :: 0 <= i < |offsets| ==> offsets[i] in m && offsets[i] < U32_RANGE
  }

  lemma EntryFits(o: nat, v: byte)
    requires o < U32_RANGE
    ensures Fits(BYTE_AT, [o, v])
  {
  }

  lemma {:induction false} EntriesEqual(m: map<nat, byte>, a: seq<nat>, n: map<nat, byte>, b: seq<nat>)
    requires EntriesFit(m, a) && EntriesFit(n, b) && |a| == |b| && PutEntries(m, a) == PutEntries(n, b)
    ensures a == b && forall i :: 0 <= i < |a| ==> m[a[i]] == n[a[i]]
    decreases |a|
  {
    if a != [] {
      EntryFits(a[0], m[a[0]]);
      EntryFits(b[0], n[b[0]]);
      RecordEqual(BYTE_AT, [a[0], m[a[0]]], [b[0], n[b[0]]], PutEntries(m, a[1..]), PutEntries(n, b[1..]));
      assert a[0] == [a[0], m[a[0]]][0] == b[0] && m[a[0]] == [a[0], m[a[0]]][1] == n[b[0]];
      EntriesEqual(m, a[1..], n, b[1..]);
      assert a == [a[0]] + a[1..] && b == [b[0]] + b[1..];
    }
  }

  lemma {:induction false} AscendingSize(s: set<nat>)
    ensures |Ascending(s)| == |s|
    decreases |s|
  {
    if s != {} {
      AscendingSize(s - {Least(s)});
    }
  }

  lemma {:induction false} EntriesSize(m: map<nat, byte>, offsets: seq<nat>)
    requires forall i :: 0 <= i < |offsets| ==> offsets[i] in m
    ensures |PutEntries(m, offsets)| == 5 * |offsets|
    decreases |offsets|
  {
    if offsets != [] {
      EntriesSize(m, offsets[1..]);
    }
  }

  lemma {:induction false} OffsetsBounded(m: map<nat, byte>, spans: seq<Span>)
    requires AddSpans(m, spans).Some? && forall o :: o in m ==> o < U32_RANGE
    ensures forall o :: o in AddSpans(m, spans).value ==> o < U32_RANGE
    decreases |spans|
  {
    if spans != [] {
      var n := AddBytes(m, spans[0].offset, spans[0].bytes).value;
      forall o | o in n ensures o < U32_RANGE {
        AddBytesHas(m, spans[0].offset, spans[0].bytes, o);
      }
      OffsetsBounded(n, spans[1..]);
    }
  }

  lemma ProgressFitsEntries(p: Progress)
    requires ProgressValid(p)
    ensures EntriesFit(SpanMap(p), Ascending(SpanMap(p).Keys))
    ensures |Ascending(SpanMap(p).Keys)| == ALLOWED && |PutProgress(SpanMap(p))| == 5 * ALLOWED
  {
    var m := SpanMap(p);
    OffsetsBounded(map[], p.spans);
    AscendingSize(m.Keys);
    EntriesSize(m, Ascending(m.Keys));
    forall i | 0 <= i < |Ascending(m.Keys)| ensures Ascending(m.Keys)[i] in m && Ascending(m.Keys)[i] < U32_RANGE {
      assert Ascending(m.Keys)[i] in Ascending(m.Keys);
    }
  }

  lemma ProgressEqual(a: Progress, b: Progress)
    requires ProgressValid(a) && ProgressValid(b) && PutProgress(SpanMap(a)) == PutProgress(SpanMap(b))
    ensures SameBytes(a, b)
  {
    var m, n := SpanMap(a), SpanMap(b);
    ProgressFitsEntries(a);
    ProgressFitsEntries(b);
    EntriesEqual(m, Ascending(m.Keys), n, Ascending(n.Keys));
    forall o: nat ensures o in m <==> o in n {
      assert o in Ascending(m.Keys) <==> o in m;
      assert o in Ascending(n.Keys) <==> o in n;
    }
    forall o: nat | o in m ensures m[o] == n[o] {
      assert o in Ascending(m.Keys);
    }
    assert m == n;
    SplitIsInvisible(a, b);
  }

  // ---------------------------------------------------------------- the fixed context

  function RoomFields(r: Room): seq<nat> {
    [r.epoch, r.location.world, r.location.room, r.location.door, r.location.mapProgram, r.location.battleProgram,
     r.location.eventProgram]
  }

  function HoldFields(h: Hold): seq<nat> { [h.epoch, if h.active then 1 else 0, h.eventProgram] }

  lemma RoomEqual(a: Room, b: Room)
    requires PutRoom(a) == PutRoom(b)
    ensures a == b
  {
    Powers();
    RecordEqual(ROOM, RoomFields(a), RoomFields(b), [], []);
    var x, y := RoomFields(a), RoomFields(b);
    assert x[0] == y[0] && x[1] == y[1] && x[2] == y[2] && x[3] == y[3] && x[4] == y[4] && x[5] == y[5] && x[6] == y[6];
  }

  lemma HoldEqual(a: Hold, b: Hold)
    requires PutHold(a) == PutHold(b)
    ensures a == b
  {
    Powers();
    RecordEqual(HOLD, HoldFields(a), HoldFields(b), [], []);
    var x, y := HoldFields(a), HoldFields(b);
    assert x[0] == y[0] && x[1] == y[1] && x[2] == y[2];
  }

  lemma CensusEqual(a: u32, b: u32, c: u32, d: u32)
    requires PutAll(CENSUS, [a, b]) == PutAll(CENSUS, [c, d])
    ensures a == c && b == d
  {
    Powers();
    RecordEqual(CENSUS, [a, b], [c, d], [], []);
    assert [a, b][0] == [c, d][0] && [a, b][1] == [c, d][1];
  }

  lemma SixParts(a: seq<byte>, b: seq<byte>, c: seq<byte>, d: seq<byte>, e: seq<byte>,
                 v: seq<byte>, w: seq<byte>, x: seq<byte>, y: seq<byte>, z: seq<byte>, head: seq<byte>)
    requires |a| == |v| && |b| == |w| && |c| == |x| && |d| == |y|
    requires head + a + b + c + d + e == head + v + w + x + y + z
    ensures a == v && b == w && c == x && d == y && e == z
  {
    CutEqual(head + a + b + c + d, e, head + v + w + x + y, z);
    CutEqual(head + a + b + c, d, head + v + w + x, y);
    CutEqual(head + a + b, c, head + v + w, x);
    CutEqual(head + a, b, head + v, w);
    CutEqual(head, a, head, v);
  }

  lemma RoomSize(r: Room)
    ensures |PutRoom(r)| == Width(ROOM)
  {
  }

  lemma HoldSize(h: Hold)
    ensures |PutHold(h)| == Width(HOLD)
  {
  }

  lemma CensusSize(a: u32, b: u32)
    ensures |PutAll(CENSUS, [a, b])| == Width(CENSUS)
  {
  }

  lemma ContextSize(s: Snapshot)
    requires ProgressValid(s.progress)
    ensures |Context(s)| == |DOMAIN| + 1 + Width(ROOM) + Width(HOLD) + 5 * ALLOWED + Width(CENSUS)
  {
    RoomSize(s.room);
    HoldSize(s.hold);
    CensusSize(s.living, s.dead);
    ProgressFitsEntries(s.progress);
  }


  function Flag(s: Snapshot): (f: seq<byte>)
    ensures |f| == 1
  {
    [if Witness(s) then 1 else 0]
  }

  lemma FlagEqual(s: Snapshot, t: Snapshot)
    requires Flag(s) == Flag(t)
    ensures Witness(s) == Witness(t)
  {
  }

  lemma ContextEqual(s: Snapshot, t: Snapshot)
    requires HeadValid(s) && HeadValid(t) && ProgressValid(s.progress) && ProgressValid(t.progress)
    requires Context(s) == Context(t)
    ensures s.room == t.room && s.hold == t.hold && s.living == t.living && s.dead == t.dead && s.coverage == t.coverage
    ensures SameBytes(s.progress, t.progress)
  {
    ProgressFitsEntries(s.progress);
    ProgressFitsEntries(t.progress);
    RoomSize(s.room);
    RoomSize(t.room);
    HoldSize(s.hold);
    HoldSize(t.hold);
    SixParts(Flag(s), PutRoom(s.room), PutHold(s.hold), PutProgress(SpanMap(s.progress)), PutAll(CENSUS, [s.living, s.dead]),
             Flag(t), PutRoom(t.room), PutHold(t.hold), PutProgress(SpanMap(t.progress)), PutAll(CENSUS, [t.living, t.dead]),
             DOMAIN);
    FlagEqual(s, t);
    RoomEqual(s.room, t.room);
    HoldEqual(s.hold, t.hold);
    ProgressEqual(s.progress, t.progress);
    CensusEqual(s.living, s.dead, t.living, t.dead);
  }

  // ---------------------------------------------------------------- the sorted table

  function GetSized(b: seq<byte>): Option<(seq<byte>, seq<byte>)> {
    match GetAll(SIZE, b)
    case None => None
    case Some((vs, rest)) => if vs == [] || vs[0] > |rest| then None else Some((rest[..vs[0]], rest[vs[0]..]))
  }

  lemma GetPutSized(x: seq<byte>, rest: seq<byte>)
    requires |x| < U32_RANGE
    ensures GetSized(PutSized(x) + rest) == Some((x, rest))
  {
    Powers();
    Associate(PutAll(SIZE, [|x|]), x, rest);
    GetAllPutAll(SIZE, [|x|], x + rest);
  }

  predicate TableFits(e: seq<seq<byte>>) {
    |e| < U16_RANGE && forall i :: 0 <= i < |e| ==> |e[i]| < U32_RANGE
  }

  lemma SizedRead(e: seq<seq<byte>>, rest: seq<byte>)
    requires TableFits(e)
    ensures GetList(GetSized, |e|, PutList(PutSized, e) + rest) == Some((e, rest))
  {
    forall i, tail | 0 <= i < |e| ensures GetSized(PutSized(e[i]) + tail) == Some((e[i], tail)) {
      GetPutSized(e[i], tail);
    }
    GetPutList(PutSized, GetSized, e, rest);
  }

  lemma CountsEqual(m: nat, n: nat, b: seq<byte>, c: seq<byte>)
    requires m < U16_RANGE && n < U16_RANGE && PutAll(COUNT, [m]) + b == PutAll(COUNT, [n]) + c
    ensures m == n && b == c
  {
    Powers();
    RecordEqual(COUNT, [m], [n], b, c);
    assert [m][0] == [n][0];
  }

  lemma TablesEqual(e: seq<seq<byte>>, f: seq<seq<byte>>, b: seq<byte>, c: seq<byte>)
    requires TableFits(e) && TableFits(f) && PutTable(e) + b == PutTable(f) + c
    ensures e == f && b == c
  {
    Associate(PutAll(COUNT, [|e|]), PutList(PutSized, e), b);
    Associate(PutAll(COUNT, [|f|]), PutList(PutSized, f), c);
    CountsEqual(|e|, |f|, PutList(PutSized, e) + b, PutList(PutSized, f) + c);
    SizedRead(e, b);
    SizedRead(f, c);
  }

  // ---------------------------------------------------------------- the rows

  lemma RowFits(e: Enemy)
    ensures Fits(ROW, RowFields(e))
  {
  }

  lemma RowEqual(e: Enemy, f: Enemy)
    requires RowFields(e) == RowFields(f)
    ensures SameRow(e, f)
  {
  }

  predicate PlacesFit(linked: bool, order: seq<nat>, es: seq<Enemy>) {
    linked ==> forall i :: 0 <= i < |es| ==> Place(order, es[i].definition) < U16_RANGE
  }

  lemma ReferencesEqual(a: nat, r: u16, b: nat, u: u16, x: seq<byte>, y: seq<byte>)
    requires a < U16_RANGE && b < U16_RANGE && PutAll(REFERENCE, [a, r]) + x == PutAll(REFERENCE, [b, u]) + y
    ensures a == b && r == u && x == y
  {
    Powers();
    RecordEqual(REFERENCE, [a, r], [b, u], x, y);
    assert [a, r][0] == [b, u][0] && [a, r][1] == [b, u][1];
  }

  lemma RowCut(linked: bool, o: seq<nat>, q: seq<nat>, e: Enemy, f: Enemy, x: seq<byte>, y: seq<byte>)
    requires linked ==> Place(o, e.definition) < U16_RANGE && Place(q, f.definition) < U16_RANGE
    requires PutRow(linked, o, e) + x == PutRow(linked, q, f) + y
    ensures SameRow(e, f) && x == y
    ensures linked ==> Place(o, e.definition) == Place(q, f.definition) && e.record == f.record
  {
    RowFits(e);
    RowFits(f);
    var a := if linked then PutAll(REFERENCE, [Place(o, e.definition), e.record]) else [];
    var b := if linked then PutAll(REFERENCE, [Place(q, f.definition), f.record]) else [];
    Associate(PutAll(ROW, RowFields(e)), a, x);
    Associate(PutAll(ROW, RowFields(f)), b, y);
    RecordEqual(ROW, RowFields(e), RowFields(f), a + x, b + y);
    RowEqual(e, f);
    if linked {
      ReferencesEqual(Place(o, e.definition), e.record, Place(q, f.definition), f.record, x, y);
    } else {
      assert [] + x == x && [] + y == y;
    }
  }

  lemma {:induction false} RowsDecode(linked: bool, o: seq<nat>, q: seq<nat>, es: seq<Enemy>, fs: seq<Enemy>)
    requires |es| == |fs| && PlacesFit(linked, o, es) && PlacesFit(linked, q, fs)
    requires PutRowsFrom(linked, o, es) == PutRowsFrom(linked, q, fs)
    ensures RowsAlike(linked, o, q, es, fs)
    decreases |es|
  {
    if es != [] {
      RowCut(linked, o, q, es[0], fs[0], PutRowsFrom(linked, o, es[1..]), PutRowsFrom(linked, q, fs[1..]));
      RowsDecode(linked, o, q, es[1..], fs[1..]);
      forall i | 0 <= i < |es|
        ensures SameRow(es[i], fs[i])
        ensures linked ==> Place(o, es[i].definition) == Place(q, fs[i].definition) && es[i].record == fs[i].record
      {
        if i > 0 {
          assert es[i] == es[1..][i - 1] && fs[i] == fs[1..][i - 1];
        }
      }
    }
  }

  // ---------------------------------------------------------------- the renaming

  function Places(order: seq<nat>, n: nat): (p: seq<nat>)
    ensures |p| == n && forall d :: 0 <= d < n ==> p[d] == Place(order, d)
  {
    seq(n, d requires 0 <= d < n => Place(order, d))
  }

  // The definition of the second table standing where each of the first stands.
  function Renaming(o: seq<nat>, q: seq<nat>, n: nat): (r: seq<nat>)
    requires |q| == n && forall d :: 0 <= d < n ==> Place(o, d) < n
  {
    Gather(q, Places(o, n))
  }

  function Elements(s: seq<nat>): (e: set<nat>)
    ensures forall x :: x in e <==> x in s
  {
    set x | x in s
  }

  lemma HeadOnce(s: seq<nat>)
    requires Distinct(s) && s != []
    ensures s[0] !in s[1..] && Distinct(s[1..]) && Elements(s) == {s[0]} + Elements(s[1..])
  {
  }

  lemma {:induction false} DistinctCount(s: seq<nat>)
    requires Distinct(s)
    ensures |Elements(s)| == |s|
    decreases |s|
  {
    if s == [] {
      assert Elements(s) == {};
    } else {
      HeadOnce(s);
      DistinctCount(s[1..]);
    }
  }

  lemma {:induction false} OnceEach(s: seq<nat>, x: nat)
    requires Distinct(s)
    ensures multiset(s)[x] == if x in s then 1 else 0
    decreases |s|
  {
    if s != [] {
      HeadOnce(s);
      OnceEach(s[1..], x);
      MultisetTail(s);
    }
  }

  // n distinct indices below n are all of them.
  lemma BelowIota(s: seq<nat>, n: nat)
    requires |s| == n && (forall i :: 0 <= i < n ==> s[i] < n) && Distinct(s)
    ensures Permutes(s, n)
  {
    var iota := Iota(n);
    assert Distinct(iota);
    DistinctCount(s);
    DistinctCount(iota);
    forall x | x in Elements(s) ensures x in Elements(iota) {
      assert iota[x] == x;
    }
    SubsetSameSize(Elements(s), Elements(iota));
    forall x: nat ensures multiset(s)[x] == multiset(iota)[x] {
      OnceEach(s, x);
      OnceEach(iota, x);
      assert x in s <==> x in Elements(s);
      assert x in iota <==> x in Elements(iota);
    }
  }

  lemma PlacesPermute(order: seq<nat>, n: nat)
    requires Permutes(order, n)
    ensures |order| == n && (forall d :: 0 <= d < n ==> Place(order, d) < n && order[Place(order, d)] == d)
    ensures Permutes(Places(order, n), n)
  {
    forall d | 0 <= d < n ensures |order| == n && Place(order, d) < n && order[Place(order, d)] == d {
      PermutationCovers(order, n, d);
    }
    assert |order| == |multiset(order)| && |multiset(Iota(n))| == n;
    BelowIota(Places(order, n), n);
  }

  lemma RenamingPermutes(o: seq<nat>, q: seq<nat>, n: nat)
    requires Permutes(o, n) && Permutes(q, n) && |q| == n && (forall d :: 0 <= d < n ==> Place(o, d) < n)
    ensures Permutes(Renaming(o, q, n), n)
  {
    PlacesPermute(o, n);
    GatherAll(q, Places(o, n));
  }

  // ---------------------------------------------------------------- equal bytes, equal states

  lemma ValidTableFits(s: Snapshot, order: seq<nat>)
    requires |s.definitions| <= MAX_DEFINITIONS && ContentValid(s) && SortsTo(Projections(s.definitions), order)
    ensures |order| == |s.definitions| && TableFits(Gather(Projections(s.definitions), order))
  {
    PlacesPermute(order, |s.definitions|);
    CatalogOfValid(s);
    forall i | 0 <= i < |order| ensures |Gather(Projections(s.definitions), order)[i]| < U32_RANGE {
      assert DefinitionFits(s.definitions[order[i]]);
    }
  }

  lemma ValidPlacesFit(s: Snapshot, order: seq<nat>)
    requires |s.definitions| <= MAX_DEFINITIONS && ContentValid(s) && SortsTo(Projections(s.definitions), order)
    ensures PlacesFit(Witness(s), order, s.enemies)
  {
    PlacesPermute(order, |s.definitions|);
    if Witness(s) {
      forall i | 0 <= i < |s.enemies| ensures Place(order, s.enemies[i].definition) < U16_RANGE {
        assert Refers(s.enemies[i], s.definitions);
      }
    }
  }

  lemma PlaceRenames(e: seq<seq<byte>>, f: seq<seq<byte>>, o: seq<nat>, q: seq<nat>, d: nat)
    requires (forall i :: 0 <= i < |o| ==> o[i] < |e|) && (forall i :: 0 <= i < |q| ==> q[i] < |f|)
    requires Gather(e, o) == Gather(f, q) && d < |e| && Place(o, d) < |o| && o[Place(o, d)] == d
    ensures Place(o, d) < |q| && f[q[Place(o, d)]] == e[d]
  {
  }

  lemma TableByProjections(s: Snapshot, t: Snapshot, e: seq<seq<byte>>, f: seq<seq<byte>>, r: seq<nat>)
    requires e == Projections(s.definitions) && f == Projections(t.definitions)
    requires Permutes(r, |e|) && |r| == |e| == |f|
    requires forall d :: 0 <= d < |r| ==> r[d] < |f| && f[r[d]] == e[d]
    ensures SameTable(s, t, r)
  {
  }

  lemma RenamedEncodings(e: seq<seq<byte>>, f: seq<seq<byte>>, o: seq<nat>, q: seq<nat>)
    requires SortsTo(e, o) && SortsTo(f, q) && Gather(e, o) == Gather(f, q) && |o| == |q| == |e| == |f|
    requires forall d :: 0 <= d < |q| ==> Place(o, d) < |q| && o[Place(o, d)] == d
    ensures Permutes(Renaming(o, q, |q|), |e|)
    ensures forall d :: 0 <= d < |q| ==> Renaming(o, q, |q|)[d] < |f| && f[Renaming(o, q, |q|)[d]] == e[d]
  {
    RenamingPermutes(o, q, |q|);
    forall d | 0 <= d < |q| ensures Renaming(o, q, |q|)[d] < |f| && f[Renaming(o, q, |q|)[d]] == e[d] {
      PlaceRenames(e, f, o, q, d);
    }
  }

  lemma TablesRename(s: Snapshot, t: Snapshot, o: seq<nat>, q: seq<nat>)
    requires SortsTo(Projections(s.definitions), o) && SortsTo(Projections(t.definitions), q)
    requires Gather(Projections(s.definitions), o) == Gather(Projections(t.definitions), q)
    requires |o| == |q| == |s.definitions| == |t.definitions|
    requires forall d :: 0 <= d < |q| ==> Place(o, d) < |q| && o[Place(o, d)] == d
    ensures SameTable(s, t, Renaming(o, q, |q|))
  {
    var e, f := Projections(s.definitions), Projections(t.definitions);
    RenamedEncodings(e, f, o, q);
    TableByProjections(s, t, e, f, Renaming(o, q, |q|));
  }

  lemma RowsRename(s: Snapshot, t: Snapshot, o: seq<nat>, q: seq<nat>)
    requires |t.definitions| == |s.definitions| == |q|
    requires Permutes(q, |q|) && forall d :: 0 <= d < |q| ==> Place(o, d) < |q|
    requires Witness(s) == Witness(t) && RowsAlike(Witness(s), o, q, s.enemies, t.enemies)
    requires Witness(s) ==> ReferencesValid(s.enemies, s.definitions) && ReferencesValid(t.enemies, t.definitions)
    ensures SameRows(s, t, Renaming(o, q, |q|))
  {
    var r := Renaming(o, q, |q|);
    if Witness(s) {
      forall i | 0 <= i < |s.enemies|
        ensures s.enemies[i].definition < |r| && t.enemies[i].definition == r[s.enemies[i].definition]
      {
        assert Refers(s.enemies[i], s.definitions) && Refers(t.enemies[i], t.definitions);
        PermutationCovers(q, |q|, t.enemies[i].definition);
      }
    }
  }

  // The parts after the context, one by one.
  lemma CutParts(a: seq<byte>, e: seq<seq<byte>>, m: nat, x: seq<byte>, b: seq<byte>, f: seq<seq<byte>>, n: nat, y: seq<byte>)
    requires |a| == |b| && TableFits(e) && TableFits(f) && m < U16_RANGE && n < U16_RANGE
    requires a + PutTable(e) + PutAll(COUNT, [m]) + x == b + PutTable(f) + PutAll(COUNT, [n]) + y
    ensures a == b && e == f && m == n && x == y
  {
    var c, d := PutAll(COUNT, [m]), PutAll(COUNT, [n]);
    FourParts(a, PutTable(e), c, x);
    FourParts(b, PutTable(f), d, y);
    CutEqual(a, PutTable(e) + (c + x), b, PutTable(f) + (d + y));
    TablesEqual(e, f, c + x, d + y);
    CountsEqual(m, n, x, y);
  }

  lemma CutHash(s: Snapshot, t: Snapshot, o: seq<nat>, q: seq<nat>)
    requires ProgressValid(s.progress) && ProgressValid(t.progress)
    requires SortsTo(Projections(s.definitions), o) && SortsTo(Projections(t.definitions), q)
    requires TableFits(Gather(Projections(s.definitions), o)) && TableFits(Gather(Projections(t.definitions), q))
    requires |s.enemies| < U16_RANGE && |t.enemies| < U16_RANGE && HashBytes(s, o) == HashBytes(t, q)
    ensures Context(s) == Context(t) && Gather(Projections(s.definitions), o) == Gather(Projections(t.definitions), q)
    ensures |s.enemies| == |t.enemies| && PutRowsFrom(Witness(s), o, s.enemies) == PutRowsFrom(Witness(t), q, t.enemies)
  {
    ContextSize(s);
    ContextSize(t);
    CutParts(Context(s), Gather(Projections(s.definitions), o), |s.enemies|, PutRowsFrom(Witness(s), o, s.enemies),
             Context(t), Gather(Projections(t.definitions), q), |t.enemies|, PutRowsFrom(Witness(t), q, t.enemies));
  }

  lemma FourParts(a: seq<byte>, b: seq<byte>, c: seq<byte>, d: seq<byte>)
    ensures a + b + c + d == a + (b + (c + d))
  {
  }

  // What equal hashed bytes say, part by part.
  lemma SameBytesSameParts(s: Snapshot, t: Snapshot, o: seq<nat>, q: seq<nat>)
    requires Valid(s) && Valid(t)
    requires SortsTo(Projections(s.definitions), o) && SortsTo(Projections(t.definitions), q)
    requires HashBytes(s, o) == HashBytes(t, q)
    ensures Context(s) == Context(t) && Gather(Projections(s.definitions), o) == Gather(Projections(t.definitions), q)
    ensures |s.enemies| == |t.enemies| && PutRowsFrom(Witness(s), o, s.enemies) == PutRowsFrom(Witness(t), q, t.enemies)
    ensures |o| == |s.definitions| && |q| == |t.definitions|
    ensures PlacesFit(Witness(s), o, s.enemies) && PlacesFit(Witness(t), q, t.enemies)
  {
    ValidTableFits(s, o);
    ValidTableFits(t, q);
    ValidPlacesFit(s, o);
    ValidPlacesFit(t, q);
    CutHash(s, t, o, q);
  }

  // The table and the rows, once the parts agree.
  lemma PartsRename(s: Snapshot, t: Snapshot, o: seq<nat>, q: seq<nat>)
    requires SortsTo(Projections(s.definitions), o) && SortsTo(Projections(t.definitions), q)
    requires Gather(Projections(s.definitions), o) == Gather(Projections(t.definitions), q)
    requires |o| == |s.definitions| && |q| == |t.definitions|
    requires Witness(s) == Witness(t) && RowsAlike(Witness(s), o, q, s.enemies, t.enemies)
    requires Witness(s) ==> ReferencesValid(s.enemies, s.definitions) && ReferencesValid(t.enemies, t.definitions)
    ensures |q| == |s.definitions| && (forall d :: 0 <= d < |q| ==> Place(o, d) < |q|)
    ensures SameTable(s, t, Renaming(o, q, |q|)) && SameRows(s, t, Renaming(o, q, |q|))
  {
    assert |Gather(Projections(s.definitions), o)| == |Gather(Projections(t.definitions), q)|;
    PlacesPermute(o, |s.definitions|);
    TablesRename(s, t, o, q);
    RowsRename(s, t, o, q);
  }

  lemma SameBytesSameState(s: Snapshot, t: Snapshot, o: seq<nat>, q: seq<nat>)
    requires Valid(s) && Valid(t)
    requires SortsTo(Projections(s.definitions), o) && SortsTo(Projections(t.definitions), q)
    requires HashBytes(s, o) == HashBytes(t, q)
    ensures exists rename :: SameState(s, t, rename)
  {
    SameBytesSameParts(s, t, o, q);
    ContextEqual(s, t);
    RowsDecode(Witness(s), o, q, s.enemies, t.enemies);
    PartsRename(s, t, o, q);
    assert SameState(s, t, Renaming(o, q, |q|));
  }

  // The hashed bytes of two valid snapshots agree exactly when the snapshots describe the same
  // native state under some renaming of the record table.
  lemma FingerprintIsExact(s: Snapshot, t: Snapshot, o: seq<nat>, q: seq<nat>)
    requires Valid(s) && Valid(t)
    requires SortsTo(Projections(s.definitions), o) && SortsTo(Projections(t.definitions), q)
    ensures HashBytes(s, o) == HashBytes(t, q) <==> exists rename :: SameState(s, t, rename)
  {
    if HashBytes(s, o) == HashBytes(t, q) {
      SameBytesSameState(s, t, o, q);
    }
    if rename :| SameState(s, t, rename) {
      SameStateSameBytes(s, t, rename, o, q);
    }
  }
}
