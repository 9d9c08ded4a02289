// The native fingerprint (resyncNativeFingerprint of common/src/Codec.cpp): the bytes it hashes
// name the native state, whatever the order of the record table, the split of the progress spans,
// the one unreviewed header byte, or the order std::sort leaves among equal encodings.
module Fingerprint {
  import opened Common
  import opened Bytes
  import opened Snapshot
  import opened SnapshotCodec

  // ---------------------------------------------------------------- the bytes hashed

  // "KH2ResyncNativeFingerprint/v9" and its NUL.
  const DOMAIN: seq<byte> :=
    [75, 72, 50, 82, 101, 115, 121, 110, 99, 78, 97, 116, 105, 118, 101, 70, 105, 110, 103, 101, 114, 112, 114, 105, 110,
     116, 47, 118, 57, 0]

  const ROOM: seq<nat> := [4, 2, 2, 2, 2, 2, 2]
  const HOLD: seq<nat> := [4, 1, 2]
  const BYTE_AT: seq<nat> := [4, 1]
  const CENSUS: seq<nat> := [4, 4]
  const SIZE: seq<nat> := [4]
  const ROW: seq<nat> := [2, 4, 4, 1, 4, 4]
  const REFERENCE: seq<nat> := [2, 2]

  function SpanMap(p: Progress): map<nat, byte> {
    if AddSpans(map[], p.spans).Some? then AddSpans(map[], p.spans).value else map[]
  }

  // The entries of m at the given offsets.
  function PutEntries(m: map<nat, byte>, offsets: seq<nat>): seq<byte>
    requires forall i :: 0 <= i < |offsets| ==> offsets[i] in m
  {
    if offsets == [] then [] else PutAll(BYTE_AT, [offsets[0], m[offsets[0]]]) + PutEntries(m, offsets[1..])
  }

  // Every header byte but the reviewed one at 0xE.
  function Projected(d: Definition): (b: seq<byte>)
    ensures |b| == 91 + 64 * |d.records|
  {
    PutPrefix(d) + d.header[..14] + d.header[15..] + PutRecords(d.records)
  }

  function Projections(ds: seq<Definition>): (e: seq<seq<byte>>)
    ensures |e| == |ds| && forall i :: 0 <= i < |e| ==> e[i] == Projected(ds[i])
  {
    seq(|ds|, i requires 0 <= i < |ds| => Projected(ds[i]))
  }

  // Lexicographic order of byte vectors.
  predicate LexLe(a: seq<byte>, b: seq<byte>)
    decreases |a|
  {
    a == [] || (b != [] && (a[0] < b[0] || (a[0] == b[0] && LexLe(a[1..], b[1..]))))
  }

  predicate Sorted(e: seq<seq<byte>>) {
    forall i, j :: 0 <= i < j < |e| ==> LexLe(e[i], e[j])
  }

  function Iota(n: nat): (s: seq<nat>)
    ensures |s| == n && forall i :: 0 <= i < n ==> s[i] == i
  {
    if n == 0 then [] else Iota(n - 1) + [n - 1]
  }

  predicate Permutes(order: seq<nat>, n: nat) { multiset(order) == multiset(Iota(n)) }

  function Gather<T>(e: seq<T>, order: seq<nat>): (r: seq<T>)
    requires forall i :: 0 <= i < |order| ==> order[i] < |e|
    ensures |r| == |order| && forall i :: 0 <= i < |r| ==> r[i] == e[order[i]]
  {
    seq(|order|, i requires 0 <= i < |order| => e[order[i]])
  }

  // An order std::sort may leave: some permutation that puts the encodings in ascending order.
  predicate SortsTo(e: seq<seq<byte>>, order: seq<nat>) {
    Permutes(order, |e|) && (forall i :: 0 <= i < |order| ==> order[i] < |e|) && Sorted(Gather(e, order))
  }

  function PutSized(b: seq<byte>): seq<byte> {
    PutAll(SIZE, [|b|]) + b
  }

  // Where a definition stands in the order.
  function Place(order: seq<nat>, d: nat): (i: nat)
    ensures d in order ==> i < |order| && order[i] == d
  {
    if order == [] || order[0] == d then 0 else 1 + Place(order[1..], d)
  }

  function RowFields(e: Enemy): seq<nat> {
    [e.netId, e.objectId, e.objectType, e.life, Word(e.hp), Word(e.maxHp)]
  }

  function PutRow(linked: bool, order: seq<nat>, e: Enemy): seq<byte> {
    PutAll(ROW, RowFields(e)) + if linked then PutAll(REFERENCE, [Place(order, e.definition), e.record]) else []
  }

  function PutRowsFrom(linked: bool, order: seq<nat>, es: seq<Enemy>): seq<byte> {
    if es == [] then [] else PutRow(linked, order, es[0]) + PutRowsFrom(linked, order, es[1..])
  }

  function PutRoom(r: Room): seq<byte> {
    PutAll(ROOM, [r.epoch, r.location.world, r.location.room, r.location.door, r.location.mapProgram,
                  r.location.battleProgram, r.location.eventProgram])
  }

  function PutHold(h: Hold): seq<byte> {
    PutAll(HOLD, [h.epoch, if h.active then 1 else 0, h.eventProgram])
  }

  function PutProgress(m: map<nat, byte>): seq<byte> {
    PutEntries(m, Ascending(m.Keys))
  }

  function PutTable(sorted: seq<seq<byte>>): seq<byte> {
    PutAll(COUNT, [|sorted|]) + PutList(PutSized, sorted)
  }

  function Witness(s: Snapshot): bool { s.coverage == NATIVE_COMPLETE }

  function Context(s: Snapshot): seq<byte> {
    DOMAIN + [if Witness(s) then 1 else 0] + PutRoom(s.room) + PutHold(s.hold) + PutProgress(SpanMap(s.progress))
    + PutAll(CENSUS, [s.living, s.dead])
  }

  // What is hashed when the sort leaves `order`.
  function HashBytes(s: Snapshot, order: seq<nat>): seq<byte>
    requires SortsTo(Projections(s.definitions), order)
  {
    Context(s) + PutTable(Gather(Projections(s.definitions), order))
    + PutAll(COUNT, [|s.enemies|]) + PutRowsFrom(Witness(s), order, s.enemies)
  }

  // ---------------------------------------------------------------- sorting is determined

  lemma {:induction false} LexAntisymmetric(a: seq<byte>, b: seq<byte>)
    requires LexLe(a, b) && LexLe(b, a)
    ensures a == b
    decreases |a|
  {
    if a != [] && b != [] {
      LexAntisymmetric(a[1..], b[1..]);
      assert a == [a[0]] + a[1..] && b == [b[0]] + b[1..];
    }
  }

  lemma LexReflexive(a: seq<byte>)
    ensures LexLe(a, a)
    decreases |a|
  {
    if a != [] {
      LexReflexive(a[1..]);
    }
  }

  lemma MultisetTail<T>(s: seq<T>)
    requires s != []
    ensures multiset(s) == multiset{s[0]} + multiset(s[1..])
    ensures multiset(s[1..]) == multiset(s) - multiset{s[0]}
  {
    assert s == [s[0]] + s[1..];
  }

  // Two ascending lists of the same encodings are the same list.
  lemma {:induction false} SortedIsUnique(s: seq<seq<byte>>, t: seq<seq<byte>>)
    requires Sorted(s) && Sorted(t) && multiset(s) == multiset(t)
    ensures s == t
    decreases |s|
  {
    if s == [] {
      assert |multiset(t)| == |t| && |multiset(s)| == 0;
    } else {
      assert s[0] in multiset(t);
      assert t != [];
      assert t[0] in multiset(s);
      SameHead(s, t);
      MultisetTail(s);
      MultisetTail(t);
      assert multiset(s[1..]) == multiset(t[1..]);
      SortedIsUnique(s[1..], t[1..]);
      assert s == [s[0]] + s[1..] && t == [t[0]] + t[1..];
    }
  }

  lemma SameHead(s: seq<seq<byte>>, t: seq<seq<byte>>)
    requires Sorted(s) && Sorted(t) && s != [] && t != [] && s[0] in t && t[0] in s
    ensures s[0] == t[0]
  {
    LexReflexive(s[0]);
    LexReflexive(t[0]);
    assert LexLe(t[0], s[0]);
    assert LexLe(s[0], t[0]);
    LexAntisymmetric(s[0], t[0]);
  }

  lemma Removed<T>(b: seq<T>, j: nat)
    requires j < |b|
    ensures multiset(b[..j] + b[j + 1..]) == multiset(b) - multiset{b[j]}
  {
    assert b == b[..j] + [b[j]] + b[j + 1..];
  }

  lemma GatherRemoved<T>(e: seq<T>, b: seq<nat>, j: nat)
    requires j < |b| && forall i :: 0 <= i < |b| ==> b[i] < |e|
    ensures multiset(Gather(e, b)) == multiset{e[b[j]]} + multiset(Gather(e, b[..j] + b[j + 1..]))
  {
    var all := Gather(e, b);
    assert all == all[..j] + [all[j]] + all[j + 1..];
    assert Gather(e, b[..j] + b[j + 1..]) == all[..j] + all[j + 1..];
  }

  // Gathering along two rearrangements of the same indices rearranges the values.
  lemma {:induction false} GatherMultiset<T>(e: seq<T>, a: seq<nat>, b: seq<nat>)
    requires forall i :: 0 <= i < |a| ==> a[i] < |e|
    requires forall i :: 0 <= i < |b| ==> b[i] < |e|
    requires multiset(a) == multiset(b)
    ensures multiset(Gather(e, a)) == multiset(Gather(e, b))
    decreases |a|
  {
    if a == [] {
      assert |multiset(b)| == |b| && |multiset(a)| == 0;
    } else {
      assert a[0] in multiset(b);
      var j :| 0 <= j < |b| && b[j] == a[0];
      MultisetTail(a);
      Removed(b, j);
      GatherMultiset(e, a[1..], b[..j] + b[j + 1..]);
      GatherRemoved(e, a, 0);
      assert a[..0] + a[1..] == a[1..];
      GatherRemoved(e, b, j);
    }
  }

  lemma GatherAll<T>(e: seq<T>, order: seq<nat>)
    requires Permutes(order, |e|) && forall i :: 0 <= i < |order| ==> order[i] < |e|
    ensures multiset(Gather(e, order)) == multiset(e)
  {
    GatherMultiset(e, order, Iota(|e|));
    assert Gather(e, Iota(|e|)) == e;
  }

  lemma PermutationCovers(order: seq<nat>, n: nat, d: nat)
    requires Permutes(order, n) && d < n
    ensures d in order && |order| == n
  {
    assert Iota(n)[d] == d;
    assert d in multiset(Iota(n));
    assert |order| == |multiset(order)| && n == |multiset(Iota(n))|;
  }

  lemma PermutationDistinct(order: seq<nat>, n: nat, i: nat, j: nat)
    requires Permutes(order, n) && i < j < |order|
    ensures order[i] != order[j]
  {
    if order[i] == order[j] {
      var d := order[i];
      assert order == order[..i] + [order[i]] + order[i + 1..j] + [order[j]] + order[j + 1..];
      assert multiset(order)[d] >= 2;
      IotaOnce(n, d);
    }
  }

  lemma {:induction false} IotaOnce(n: nat, d: nat)
    ensures multiset(Iota(n))[d] <= 1
  {
    if n > 0 {
      IotaOnce(n - 1, d);
      if d == n - 1 {
        assert d !in Iota(n - 1);
      }
    }
  }

  // ---------------------------------------------------------------- spans as a relation

  predicate SpanHas(p: Span, o: nat, v: byte) {
    p.offset <= o < p.offset + |p.bytes| && p.bytes[o - p.offset] == v
  }

  ghost predicate SpansHave(spans: seq<Span>, o: nat, v: byte) {
    exists i :: 0 <= i < |spans| && SpanHas(spans[i], o, v)
  }

  predicate MapHas(m: map<nat, byte>, o: nat, v: byte) { o in m && m[o] == v }

  lemma {:induction false} AddBytesHas(m: map<nat, byte>, offset: nat, bytes: seq<byte>, o: nat)
    requires AddBytes(m, offset, bytes).Some?
    ensures var r := AddBytes(m, offset, bytes).value;
            && (o in r <==> o in m || offset <= o < offset + |bytes|)
            && (offset <= o < offset + |bytes| ==> o !in m && r[o] == bytes[o - offset])
            && (o in m ==> r[o] == m[o])
    decreases |bytes|
  {
    if bytes != [] {
      AddBytesHas(m[offset := bytes[0]], offset + 1, bytes[1..], o);
    }
  }

  // The map of a span list is its offset-to-byte relation.
  lemma {:induction false} AddSpansHas(m: map<nat, byte>, spans: seq<Span>, o: nat, v: byte)
    requires AddSpans(m, spans).Some?
    ensures MapHas(AddSpans(m, spans).value, o, v) <==> MapHas(m, o, v) || SpansHave(spans, o, v)
    decreases |spans|
  {
    if spans != [] {
      var n := AddBytes(m, spans[0].offset, spans[0].bytes).value;
      AddBytesHas(m, spans[0].offset, spans[0].bytes, o);
      AddSpansHas(n, spans[1..], o, v);
      assert MapHas(n, o, v) <==> MapHas(m, o, v) || SpanHas(spans[0], o, v);
      HaveStep(spans, o, v);
    }
  }

  lemma HaveStep(spans: seq<Span>, o: nat, v: byte)
    requires spans != []
    ensures SpansHave(spans, o, v) <==> SpanHas(spans[0], o, v) || SpansHave(spans[1..], o, v)
  {
    if SpansHave(spans, o, v) {
      var i :| 0 <= i < |spans| && SpanHas(spans[i], o, v);
      assert i > 0 ==> spans[1..][i - 1] == spans[i];
    }
    if SpansHave(spans[1..], o, v) {
      var i :| 0 <= i < |spans[1..]| && SpanHas(spans[1..][i], o, v);
      assert spans[i + 1] == spans[1..][i];
    }
  }

  // The same bytes at the same offsets, however they are split into spans.
  ghost predicate SameBytes(a: Progress, b: Progress) {
    forall o: nat, v: byte :: SpansHave(a.spans, o, v) <==> SpansHave(b.spans, o, v)
  }

  lemma SplitIsInvisible(a: Progress, b: Progress)
    requires ProgressValid(a) && ProgressValid(b)
    ensures SameBytes(a, b) <==> SpanMap(a) == SpanMap(b)
  {
    var m, n := SpanMap(a), SpanMap(b);
    forall o: nat, v: byte
      ensures MapHas(m, o, v) <==> SpansHave(a.spans, o, v)
      ensures MapHas(n, o, v) <==> SpansHave(b.spans, o, v)
    {
      AddSpansHas(map[], a.spans, o, v);
      AddSpansHas(map[], b.spans, o, v);
    }
    if SameBytes(a, b) {
      forall o: nat ensures (o in m <==> o in n) && (o in m ==> m[o] == n[o]) {
        if o in m {
          assert MapHas(m, o, m[o]);
          assert MapHas(n, o, m[o]);
        }
        if o in n {
          assert MapHas(n, o, n[o]);
          assert MapHas(m, o, n[o]);
        }
      }
    }
  }

  // ---------------------------------------------------------------- encodings are nearly unique

  // Where record j of definition i stands among all the record ids.
  function IdPlace(ds: seq<Definition>, i: nat, j: nat): nat
    requires i < |ds| && j < |ds[i].records|
    decreases i
  {
    if i == 0 then j else |ds[0].records| + IdPlace(ds[1..], i - 1, j)
  }

  lemma {:induction false} IdThere(ds: seq<Definition>, i: nat, j: nat)
    requires i < |ds| && j < |ds[i].records|
    ensures IdPlace(ds, i, j) < |AllIds(ds)| && AllIds(ds)[IdPlace(ds, i, j)] == RecordId(ds[i].records[j])
    decreases i
  {
    if i > 0 {
      IdThere(ds[1..], i - 1, j);
    }
  }

  lemma {:induction false} IdOrder(ds: seq<Definition>, a: nat, b: nat)
    requires a < b < |ds| && ds[a].records != [] && ds[b].records != []
    ensures IdPlace(ds, a, 0) < IdPlace(ds, b, 0)
    decreases a
  {
    if a > 0 {
      IdOrder(ds[1..], a - 1, b - 1);
    }
  }

  lemma {:induction false} RecordsInjective(a: seq<Record>, b: seq<Record>)
    requires PutRecords(a) == PutRecords(b)
    ensures a == b
  {
    GetPutRecords(a, []);
    GetPutRecords(b, []);
    assert PutRecords(a) + [] == PutRecords(a) && PutRecords(b) + [] == PutRecords(b);
    assert |a| == |b|;
  }

  lemma ProjectedRecords(a: Definition, b: Definition)
    requires Projected(a) == Projected(b)
    ensures a.records == b.records
  {
    assert PutRecords(a.records) == Projected(a)[91..];
    assert PutRecords(b.records) == Projected(b)[91..];
    RecordsInjective(a.records, b.records);
  }

  // Record ids are unique across the table, so definitions with equal projections have no records.
  lemma EqualProjectionsAreEmpty(ds: seq<Definition>, location: Location, a: nat, b: nat)
    requires DefinitionsValid(ds, location) && a < b < |ds| && Projected(ds[a]) == Projected(ds[b])
    ensures ds[a].records == [] && ds[b].records == []
  {
    ProjectedRecords(ds[a], ds[b]);
    if ds[a].records != [] {
      IdThere(ds, a, 0);
      IdThere(ds, b, 0);
      IdOrder(ds, a, b);
    }
  }

  // The reviewed header byte is not part of the projection.
  lemma ReviewedByteIsInvisible(d: Definition, v: byte)
    ensures Projected(d.(header := d.header[0xe := v])) == Projected(d)
  {
    var c := d.(header := d.header[0xe := v]);
    assert c.header[..14] == d.header[..14] && c.header[15..] == d.header[15..];
  }

  // ---------------------------------------------------------------- the fingerprint is canonical

  predicate SameRow(a: Enemy, b: Enemy) {
    && a.netId == b.netId && a.objectId == b.objectId && a.objectType == b.objectType && a.life == b.life
    && a.hp == b.hp && a.maxHp == b.maxHp
  }

  predicate SameTable(s: Snapshot, t: Snapshot, rename: seq<nat>) {
    && |t.definitions| == |s.definitions| && Permutes(rename, |s.definitions|)
    && |rename| == |s.definitions| && (forall i :: 0 <= i < |rename| ==> rename[i] < |t.definitions|)
    && forall i :: 0 <= i < |rename| ==> Projected(t.definitions[rename[i]]) == Projected(s.definitions[i])
  }

  // The rows agree; with record content, so do their references, along the renaming.
  predicate SameRows(s: Snapshot, t: Snapshot, rename: seq<nat>) {
    && |s.enemies| == |t.enemies|
    && (forall i :: 0 <= i < |s.enemies| ==> SameRow(s.enemies[i], t.enemies[i]))
    && (Witness(s) ==> forall i :: 0 <= i < |s.enemies| ==>
          && s.enemies[i].definition < |rename| && t.enemies[i].definition == rename[s.enemies[i].definition]
          && s.enemies[i].record == t.enemies[i].record)
  }

  // The same native state: the record table in another order, progress split another way, the
  // reviewed header bytes free.
  ghost predicate SameState(s: Snapshot, t: Snapshot, rename: seq<nat>) {
    && s.room == t.room && s.hold == t.hold && s.living == t.living && s.dead == t.dead && s.coverage == t.coverage
    && SameBytes(s.progress, t.progress) && SameTable(s, t, rename) && SameRows(s, t, rename)
  }

  // The sorted table does not depend on the table's order or on the sort's choice among equals.
  lemma SortedTablesAgree(s: Snapshot, t: Snapshot, rename: seq<nat>, o: seq<nat>, q: seq<nat>)
    requires SameTable(s, t, rename)
    requires SortsTo(Projections(s.definitions), o) && SortsTo(Projections(t.definitions), q)
    ensures Gather(Projections(s.definitions), o) == Gather(Projections(t.definitions), q)
  {
    var e, f := Projections(s.definitions), Projections(t.definitions);
    assert Gather(f, rename) == e;
    GatherAll(f, rename);
    GatherAll(e, o);
    GatherAll(f, q);
    SortedIsUnique(Gather(e, o), Gather(f, q));
  }

  // A referenced definition has a place of its own in the sorted table.
  lemma PlaceIsCanonical(s: Snapshot, t: Snapshot, rename: seq<nat>, o: seq<nat>, q: seq<nat>, d: nat)
    requires DefinitionsValid(s.definitions, s.room.location) && SameTable(s, t, rename)
    requires SortsTo(Projections(s.definitions), o) && SortsTo(Projections(t.definitions), q)
    requires d < |s.definitions| && s.definitions[d].records != []
    ensures Place(o, d) == Place(q, rename[d])
  {
    var n := |s.definitions|;
    var e, f := Projections(s.definitions), Projections(t.definitions);
    SortedTablesAgree(s, t, rename, o, q);
    PermutationCovers(o, n, d);
    PermutationCovers(q, n, rename[d]);
    var i, j := Place(o, d), Place(q, rename[d]);
    assert Gather(e, o)[i] == Projected(s.definitions[d]);
    assert Gather(f, q)[j] == Projected(s.definitions[d]);
    assert Projected(s.definitions[o[j]]) == Projected(s.definitions[d]);
    if i != j {
      if i < j { PermutationDistinct(o, n, i, j); } else { PermutationDistinct(o, n, j, i); }
      if d < o[j] {
        EqualProjectionsAreEmpty(s.definitions, s.room.location, d, o[j]);
      } else {
        EqualProjectionsAreEmpty(s.definitions, s.room.location, o[j], d);
      }
    }
  }

  predicate RowsAlike(linked: bool, o: seq<nat>, q: seq<nat>, es: seq<Enemy>, fs: seq<Enemy>) {
    && |es| == |fs|
    && (forall i :: 0 <= i < |es| ==> SameRow(es[i], fs[i]))
    && (linked ==> forall i :: 0 <= i < |es| ==>
          Place(o, es[i].definition) == Place(q, fs[i].definition) && es[i].record == fs[i].record)
  }

  lemma {:induction false} RowsEncodeAlike(linked: bool, o: seq<nat>, q: seq<nat>, es: seq<Enemy>, fs: seq<Enemy>)
    requires RowsAlike(linked, o, q, es, fs)
    ensures PutRowsFrom(linked, o, es) == PutRowsFrom(linked, q, fs)
    decreases |es|
  {
    if es != [] {
      assert RowFields(es[0]) == RowFields(fs[0]);
      assert PutRow(linked, o, es[0]) == PutRow(linked, q, fs[0]);
      RowsEncodeAlike(linked, o, q, es[1..], fs[1..]);
    }
  }

  lemma RowsAgree(s: Snapshot, t: Snapshot, rename: seq<nat>, o: seq<nat>, q: seq<nat>)
    requires ContentValid(s) && s.coverage in {COMPLETE, NATIVE_COMPLETE}
    requires SameTable(s, t, rename) && SameRows(s, t, rename)
    requires SortsTo(Projections(s.definitions), o) && SortsTo(Projections(t.definitions), q)
    ensures PutRowsFrom(Witness(s), o, s.enemies) == PutRowsFrom(Witness(s), q, t.enemies)
  {
    if Witness(s) {
      forall i | 0 <= i < |s.enemies|
        ensures Place(o, s.enemies[i].definition) == Place(q, t.enemies[i].definition)
      {
        assert Refers(s.enemies[i], s.definitions);
        PlaceIsCanonical(s, t, rename, o, q, s.enemies[i].definition);
      }
    }
    RowsEncodeAlike(Witness(s), o, q, s.enemies, t.enemies);
  }

  // Equal native states hash equal bytes, however each table is ordered and each sort falls.
  lemma SameStateSameBytes(s: Snapshot, t: Snapshot, rename: seq<nat>, o: seq<nat>, q: seq<nat>)
    requires Valid(s) && Valid(t) && SameState(s, t, rename)
    requires SortsTo(Projections(s.definitions), o) && SortsTo(Projections(t.definitions), q)
    ensures HashBytes(s, o) == HashBytes(t, q)
  {
    SplitIsInvisible(s.progress, t.progress);
    SortedTablesAgree(s, t, rename, o, q);
    RowsAgree(s, t, rename, o, q);
  }
}
