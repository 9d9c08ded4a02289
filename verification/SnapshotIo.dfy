// Writing and reading a snapshot through the buffer objects (common/src/Codec.cpp, write and read
// of ResyncSnapshot over ByteWriter and ByteReader), proved against Encode and Decode.
module SnapshotIo {
  import opened Common
  import opened Bytes
  import opened Snapshot
  import opened SnapshotCodec

  // ---------------------------------------------------------------- writing

  lemma NextWritten<T>(put: T -> seq<byte>, xs: seq<T>, i: nat)
    requires i < |xs|
    ensures PutList(put, xs[i..]) == put(xs[i]) + PutList(put, xs[i + 1..])
  {
  }

  method WriteSpans(w: ByteWriter, ps: seq<Span>)
    modifies w
    ensures w.buf == old(w.buf) + PutList(PutSpan, ps)
  {
    var i := 0;
    while i < |ps|
      invariant i <= |ps| && w.buf + PutList(PutSpan, ps[i..]) == old(w.buf) + PutList(PutSpan, ps)
    {
      NextWritten(PutSpan, ps, i);
      ghost var before := w.buf;
      w.WriteRecord(SPAN, [ps[i].offset, |ps[i].bytes|]);
      w.WriteBytes(ps[i].bytes);
      assert w.buf == before + PutSpan(ps[i]);
      i := i + 1;
    }
  }

  method WriteEnemy(w: ByteWriter, e: Enemy)
    modifies w
    ensures w.buf == old(w.buf) + PutEnemy(e)
  {
    w.WriteRecord(ENEMY, EnemyFields(e));
  }

  method WriteEnemies(w: ByteWriter, es: seq<Enemy>)
    modifies w
    ensures w.buf == old(w.buf) + PutList(PutEnemy, es)
  {
    var i := 0;
    while i < |es|
      invariant i <= |es| && w.buf + PutList(PutEnemy, es[i..]) == old(w.buf) + PutList(PutEnemy, es)
    {
      NextWritten(PutEnemy, es, i);
      Associate(w.buf, PutEnemy(es[i]), PutList(PutEnemy, es[i + 1..]));
      WriteEnemy(w, es[i]);
      i := i + 1;
    }
  }

  method WriteRecords(w: ByteWriter, rs: seq<Record>)
    modifies w
    ensures w.buf == old(w.buf) + PutRecords(rs)
  {
    var i := 0;
    while i < |rs|
      invariant i <= |rs| && w.buf + PutRecords(rs[i..]) == old(w.buf) + PutRecords(rs)
    {
      assert rs[i..][1..] == rs[i + 1..];
      assert PutRecords(rs[i..]) == rs[i] + PutRecords(rs[i + 1..]);
      w.WriteBytes(rs[i]);
      i := i + 1;
    }
  }

  method WriteDefinition(w: ByteWriter, d: Definition)
    modifies w
    ensures w.buf == old(w.buf) + PutDefinition(d)
  {
    w.WriteBytes(d.layout);
    w.WriteRecord(PLACE, PlaceFields(d.location, d.groupKey));
    w.WriteBytes(d.header);
    WriteRecords(w, d.records);
  }

  method WriteDefinitions(w: ByteWriter, ds: seq<Definition>)
    modifies w
    ensures w.buf == old(w.buf) + PutList(PutDefinition, ds)
  {
    var i := 0;
    while i < |ds|
      invariant i <= |ds| && w.buf + PutList(PutDefinition, ds[i..]) == old(w.buf) + PutList(PutDefinition, ds)
    {
      NextWritten(PutDefinition, ds, i);
      WriteDefinition(w, ds[i]);
      i := i + 1;
    }
  }

  method WriteState(w: ByteWriter, a: ActivationState)
    modifies w
    ensures w.buf == old(w.buf) + PutState(a)
  {
    w.WriteRecord(STATE, StateFields(a));
  }

  method WritePoint(w: ByteWriter, a: Activation)
    modifies w
    ensures w.buf == old(w.buf) + (PutAll(TAG, ACTIVATION_TAG) + PutAll(POINT, [a.definition, a.x, a.y, a.z, a.w]))
  {
    w.WriteRecord(TAG, ACTIVATION_TAG);
    w.WriteRecord(POINT, [a.definition, a.x, a.y, a.z, a.w]);
  }

  lemma FiveParts(a: seq<byte>, b: seq<byte>, c: seq<byte>, d: seq<byte>, e: seq<byte>, f: seq<byte>)
    ensures a + (b + c) + d + e + f == a + (b + (c + (d + (e + f))))
  {
  }

  method WriteActivation(w: ByteWriter, a: Activation)
    modifies w
    ensures w.buf == old(w.buf) + PutActivation(a)
  {
    FiveParts(w.buf, PutAll(TAG, ACTIVATION_TAG), PutAll(POINT, [a.definition, a.x, a.y, a.z, a.w]), PutState(a.before),
              PutState(a.current), PutAll(STAMP, [a.firstUpdate, a.hostTransition, a.hostLoad]));
    WritePoint(w, a);
    WriteState(w, a.before);
    WriteState(w, a.current);
    w.WriteRecord(STAMP, [a.firstUpdate, a.hostTransition, a.hostLoad]);
  }

  method WriteSitOut(w: ByteWriter, o: SitOut)
    modifies w
    ensures w.buf == old(w.buf) + PutSitOut(o)
  {
    w.WriteRecord(TAG, SIT_OUT_TAG);
    w.WriteRecord(SIT, [o.arena, o.bossNetId, o.bossObjectId]);
  }

  method WriteActivationIfAny(w: ByteWriter, a: Option<Activation>)
    modifies w
    ensures w.buf == old(w.buf) + (if a.Some? then PutActivation(a.value) else [])
  {
    if a.Some? {
      WriteActivation(w, a.value);
    }
  }

  method WriteSitOutIfAny(w: ByteWriter, o: Option<SitOut>)
    modifies w
    ensures w.buf == old(w.buf) + (if o.Some? then PutSitOut(o.value) else [])
  {
    if o.Some? {
      WriteSitOut(w, o.value);
    }
  }

  method WriteTrailer(w: ByteWriter, a: Option<Activation>, o: Option<SitOut>)
    modifies w
    ensures w.buf == old(w.buf) + PutTrailer(a, o)
  {
    Associate(w.buf, if a.Some? then PutActivation(a.value) else [], if o.Some? then PutSitOut(o.value) else []);
    WriteActivationIfAny(w, a);
    WriteSitOutIfAny(w, o);
  }

  method WriteHead(w: ByteWriter, r: Room, h: Hold, p: Progress)
    modifies w
    ensures w.buf == old(w.buf) + PutAll(HEAD, HeadFields(r, h, p))
  {
    w.WriteRecord(HEAD, HeadFields(r, h, p));
  }

  method WriteFront(w: ByteWriter, r: Room, h: Hold, p: Progress)
    modifies w
    ensures w.buf == old(w.buf) + PutFront(r, h, p)
  {
    Associate(w.buf, PutAll(HEAD, HeadFields(r, h, p)), PutList(PutSpan, p.spans));
    WriteHead(w, r, h, p);
    WriteSpans(w, p.spans);
  }

  method WriteMiddle(w: ByteWriter, hp: u64, n: nat)
    modifies w
    ensures w.buf == old(w.buf) + PutAll(MIDDLE, [hp, n])
  {
    w.WriteRecord(MIDDLE, [hp, n]);
  }

  method WriteRows(w: ByteWriter, hp: u64, es: seq<Enemy>)
    modifies w
    ensures w.buf == old(w.buf) + PutRows(hp, es)
  {
    Associate(w.buf, PutAll(MIDDLE, [hp, |es|]), PutList(PutEnemy, es));
    WriteMiddle(w, hp, |es|);
    WriteEnemies(w, es);
  }

  method WriteFooter(w: ByteWriter, f: Footer)
    modifies w
    ensures w.buf == old(w.buf) + PutFooter(f)
  {
    w.WriteRecord(TAIL, FooterFields(f));
    w.WriteBytes(f.fingerprint);
  }

  method WriteCatalog(w: ByteWriter, ds: seq<Definition>)
    modifies w
    ensures w.buf == old(w.buf) + PutCatalog(ds)
  {
    w.WriteRecord(COUNT, [|ds|]);
    WriteDefinitions(w, ds);
  }

  lemma FiveStages(buf: seq<byte>, s: Snapshot)
    ensures buf + PutFront(s.room, s.hold, s.progress) + PutRows(s.hpSequence, s.enemies) + PutFooter(FooterFrom(s))
            + PutCatalog(s.definitions) + PutTrailer(s.activation, s.sitOut) == buf + Encode(s)
  {
    FiveInOrder(buf, PutFront(s.room, s.hold, s.progress), PutRows(s.hpSequence, s.enemies), PutFooter(FooterFrom(s)),
                PutCatalog(s.definitions), PutTrailer(s.activation, s.sitOut));
  }

  lemma FiveInOrder(a: seq<byte>, b: seq<byte>, c: seq<byte>, d: seq<byte>, e: seq<byte>, f: seq<byte>)
    ensures a + b + c + d + e + f == a + (b + (c + (d + (e + f))))
  {
  }

  method WriteStages(w: ByteWriter, s: Snapshot)
    modifies w
    ensures w.buf == old(w.buf) + Encode(s)
  {
    FiveStages(w.buf, s);
    WriteFront(w, s.room, s.hold, s.progress);
    WriteRows(w, s.hpSequence, s.enemies);
    WriteFooter(w, FooterFrom(s));
    WriteCatalog(w, s.definitions);
    WriteTrailer(w, s.activation, s.sitOut);
  }

  // A refused snapshot writes nothing.
  method Write(w: ByteWriter, fingerprint: Snapshot -> Digest, s: Snapshot) returns (ok: bool)
    modifies w
    ensures ok <==> Writable(fingerprint, s)
    ensures w.buf == if ok then old(w.buf) + Encode(s) else old(w.buf)
  {
    if !Valid(s) || s.fingerprint != fingerprint(s) {
      return false;
    }
    WrittenFits(s);
    WriteStages(w, s);
    return true;
  }

  // ---------------------------------------------------------------- reading

  // The list so far and what is still to be read make up the whole list.
  ghost predicate ReadSoFar<T>(get: seq<byte> -> Option<(T, seq<byte>)>, n: nat, whole: seq<byte>, i: nat, got: seq<T>, rest: seq<byte>) {
    && i <= n && |got| == i
    && GetList(get, n, whole) == match GetList(get, n - i, rest)
                                 case None => None
                                 case Some((more, end)) => Some((got + more, end))
  }

  lemma ReadStart<T>(get: seq<byte> -> Option<(T, seq<byte>)>, n: nat, whole: seq<byte>)
    ensures ReadSoFar(get, n, whole, 0, [], whole)
  {
    if GetList(get, n, whole).Some? {
      var (more, end) := GetList(get, n, whole).value;
      assert [] + more == more;
    }
  }

  lemma ReadNext<T>(get: seq<byte> -> Option<(T, seq<byte>)>, n: nat, whole: seq<byte>, i: nat, got: seq<T>, rest: seq<byte>, x: T, next: seq<byte>)
    requires ReadSoFar(get, n, whole, i, got, rest) && i < n && get(rest) == Some((x, next))
    ensures ReadSoFar(get, n, whole, i + 1, got + [x], next)
  {
    if GetList(get, n - i - 1, next).Some? {
      var (more, end) := GetList(get, n - i - 1, next).value;
      assert got + ([x] + more) == got + [x] + more;
    }
  }

  lemma ReadEnd<T>(get: seq<byte> -> Option<(T, seq<byte>)>, n: nat, whole: seq<byte>, got: seq<T>, rest: seq<byte>)
    requires ReadSoFar(get, n, whole, n, got, rest)
    ensures GetList(get, n, whole) == Some((got, rest))
  {
    assert got + [] == got;
  }

  // What a read says of the bytes it started at.
  ghost predicate Yields<T>(answer: Option<(T, seq<byte>)>, x: Option<T>, rest: seq<byte>) {
    if answer.None? then x.None? else x == Some(answer.value.0) && rest == answer.value.1
  }

  method ReadBytes(r: ByteReader, n: nat) returns (b: Option<seq<byte>>)
    requires r.Valid()
    modifies r
    ensures r.Valid()
    ensures if |old(r.Rest())| < n then b.None? else b == Some(old(r.Rest())[..n]) && r.Rest() == old(r.Rest())[n..]
  {
    var got: seq<byte> := [];
    ghost var whole := r.Rest();
    while |got| < n
      invariant r.Valid() && |got| <= n && |got| <= |whole| && got == whole[..|got|] && r.Rest() == whole[|got|..]
    {
      var v := r.ReadLittleEndian(1);
      if v.None? {
        return None;
      }
      OneByte(whole[|got|..]);
      got := got + [v.value];
    }
    return Some(got);
  }

  lemma OneByte(b: seq<byte>)
    requires b != []
    ensures Get(b[..1]) == b[0]
  {
  }

  method ReadSpan(r: ByteReader) returns (p: Option<Span>)
    requires r.Valid()
    modifies r
    ensures r.Valid() && Yields(GetSpan(old(r.Rest())), p, r.Rest())
  {
    PutAllGetAllIf(SPAN, r.Rest());
    Powers();
    var vs := r.ReadRecord(SPAN);
    if vs.None? || vs.value[1] > 8108 {
      return None;
    }
    var bytes := ReadBytes(r, vs.value[1]);
    if bytes.None? {
      return None;
    }
    return Some(Span(vs.value[0], bytes.value));
  }

  lemma PutAllGetAllIf(ws: seq<nat>, b: seq<byte>)
    ensures GetAll(ws, b).Some? ==> Fits(ws, GetAll(ws, b).value.0)
  {
    if GetAll(ws, b).Some? {
      PutAllGetAll(ws, b);
    }
  }

  method ReadSpans(r: ByteReader, n: nat) returns (ps: Option<seq<Span>>)
    requires r.Valid()
    modifies r
    ensures r.Valid() && Yields(GetList(GetSpan, n, old(r.Rest())), ps, r.Rest())
  {
    ghost var whole := r.Rest();
    var got: seq<Span> := [];
    ReadStart(GetSpan, n, whole);
    while |got| < n
      invariant r.Valid() && |got| <= n && ReadSoFar(GetSpan, n, whole, |got|, got, r.Rest())
    {
      ghost var before := r.Rest();
      var p := ReadSpan(r);
      if p.None? {
        return None;
      }
      ReadNext(GetSpan, n, whole, |got|, got, before, p.value, r.Rest());
      got := got + [p.value];
    }
    ReadEnd(GetSpan, n, whole, got, r.Rest());
    return Some(got);
  }

  method ReadEnemy(r: ByteReader) returns (e: Option<Enemy>)
    requires r.Valid()
    modifies r
    ensures r.Valid() && Yields(GetEnemy(old(r.Rest())), e, r.Rest())
  {
    PutAllGetAllIf(ENEMY, r.Rest());
    var vs := r.ReadRecord(ENEMY);
    if vs.None? {
      return None;
    }
    return Some(EnemyOf(vs.value));
  }

  method ReadEnemies(r: ByteReader, n: nat) returns (es: Option<seq<Enemy>>)
    requires r.Valid()
    modifies r
    ensures r.Valid() && Yields(GetList(GetEnemy, n, old(r.Rest())), es, r.Rest())
  {
    ghost var whole := r.Rest();
    var got: seq<Enemy> := [];
    ReadStart(GetEnemy, n, whole);
    while |got| < n
      invariant r.Valid() && |got| <= n && ReadSoFar(GetEnemy, n, whole, |got|, got, r.Rest())
    {
      ghost var before := r.Rest();
      var e := ReadEnemy(r);
      if e.None? {
        return None;
      }
      ReadNext(GetEnemy, n, whole, |got|, got, before, e.value, r.Rest());
      got := got + [e.value];
    }
    ReadEnd(GetEnemy, n, whole, got, r.Rest());
    return Some(got);
  }

  method ReadRecords(r: ByteReader, n: nat) returns (rs: Option<seq<Record>>)
    requires r.Valid()
    modifies r
    ensures r.Valid()
    ensures if |old(r.Rest())| < 64 * n then rs.None?
            else rs == Some(GetRecords(n, old(r.Rest()))) && r.Rest() == old(r.Rest())[64 * n..]
  {
    ghost var whole := r.Rest();
    var got: seq<Record> := [];
    while |got| < n
      invariant r.Valid() && |got| <= n && 64 * |got| <= |whole| && r.Rest() == whole[64 * |got|..]
      invariant 64 * n <= |whole| ==> GetRecords(n, whole) == got + GetRecords(n - |got|, whole[64 * |got|..])
    {
      ghost var at := whole[64 * |got|..];
      var b := ReadBytes(r, 64);
      if b.None? {
        return None;
      }
      if 64 * n <= |whole| {
        assert GetRecords(n - |got|, at) == [at[..64]] + GetRecords(n - |got| - 1, at[64..]);
        assert at[64..] == whole[64 * (|got| + 1)..];
      }
      got := got + [b.value];
    }
    assert got + GetRecords(0, whole[64 * n..]) == got;
    return Some(got);
  }

  method ReadDefinition(r: ByteReader) returns (d: Option<Definition>)
    requires r.Valid()
    modifies r
    ensures r.Valid() && Yields(GetDefinition(old(r.Rest())), d, r.Rest())
  {
    ghost var b := r.Rest();
    if |r.data| - r.pos < 92 {
      return None;
    }
    var layout := ReadBytes(r, 32);
    if layout.None? {
      return None;
    }
    PutAllGetAllIf(PLACE, r.Rest());
    var vs := r.ReadRecord(PLACE);
    if vs.None? {
      return None;
    }
    var header := ReadBytes(r, 44);
    if header.None? || U16At(header.value, 4) > MAX_RECORDS {
      return None;
    }
    var records := ReadRecords(r, U16At(header.value, 4));
    if records.None? {
      return None;
    }
    Powers();
    return Some(Definition(layout.value, LocationOf(vs.value), vs.value[6], header.value, records.value));
  }

  method ReadDefinitions(r: ByteReader, n: nat) returns (ds: Option<seq<Definition>>)
    requires r.Valid()
    modifies r
    ensures r.Valid() && Yields(GetList(GetDefinition, n, old(r.Rest())), ds, r.Rest())
  {
    ghost var whole := r.Rest();
    var got: seq<Definition> := [];
    ReadStart(GetDefinition, n, whole);
    while |got| < n
      invariant r.Valid() && |got| <= n && ReadSoFar(GetDefinition, n, whole, |got|, got, r.Rest())
    {
      ghost var before := r.Rest();
      var d := ReadDefinition(r);
      if d.None? {
        return None;
      }
      ReadNext(GetDefinition, n, whole, |got|, got, before, d.value, r.Rest());
      got := got + [d.value];
    }
    ReadEnd(GetDefinition, n, whole, got, r.Rest());
    return Some(got);
  }

  method ReadFront(r: ByteReader) returns (front: Option<(Room, Hold, Progress)>)
    requires r.Valid()
    modifies r
    ensures r.Valid() && Yields(GetFront(old(r.Rest())), front, r.Rest())
  {
    PutAllGetAllIf(HEAD, r.Rest());
    var vs := r.ReadRecord(HEAD);
    if vs.None? || !HeadLegal(vs.value) {
      return None;
    }
    var spans := ReadSpans(r, vs.value[12]);
    if spans.None? {
      return None;
    }
    return Some((RoomOf(vs.value), HoldOf(vs.value), Progress(VersionOf(vs.value), true, spans.value)));
  }

  method ReadRows(r: ByteReader) returns (rows: Option<(u64, seq<Enemy>)>)
    requires r.Valid()
    modifies r
    ensures r.Valid() && Yields(GetRows(old(r.Rest())), rows, r.Rest())
  {
    PutAllGetAllIf(MIDDLE, r.Rest());
    var vs := r.ReadRecord(MIDDLE);
    if vs.None? || vs.value[1] > MAX_ENEMIES || vs.value[1] * 39 > |r.data| - r.pos {
      return None;
    }
    var es := ReadEnemies(r, vs.value[1]);
    if es.None? {
      return None;
    }
    return Some((HpOf(vs.value), es.value));
  }

  method ReadFooter(r: ByteReader) returns (f: Option<Footer>)
    requires r.Valid()
    modifies r
    ensures r.Valid() && Yields(GetFooter(old(r.Rest())), f, r.Rest())
  {
    PutAllGetAllIf(TAIL, r.Rest());
    var vs := r.ReadRecord(TAIL);
    if vs.None? {
      return None;
    }
    var fingerprint := ReadBytes(r, 32);
    if fingerprint.None? {
      return None;
    }
    return Some(FooterOf(vs.value, fingerprint.value));
  }

  method ReadCatalog(r: ByteReader) returns (ds: Option<seq<Definition>>)
    requires r.Valid()
    modifies r
    ensures r.Valid() && Yields(GetCatalog(old(r.Rest())), ds, r.Rest())
  {
    PutAllGetAllIf(COUNT, r.Rest());
    var vs := r.ReadRecord(COUNT);
    if vs.None? || vs.value[0] > MAX_DEFINITIONS || vs.value[0] * 92 > |r.data| - r.pos {
      return None;
    }
    ds := ReadDefinitions(r, vs.value[0]);
    if ds.Some? && RecordTotal(ds.value) > MAX_TOTAL_RECORDS {
      return None;
    }
  }

  method ReadState(r: ByteReader) returns (s: Option<ActivationState>)
    requires r.Valid()
    modifies r
    ensures r.Valid() && Yields(GetState(old(r.Rest())), s, r.Rest())
  {
    PutAllGetAllIf(STATE, r.Rest());
    var vs := r.ReadRecord(STATE);
    if vs.None? {
      return None;
    }
    return Some(StateOf(vs.value));
  }

  method ReadPoint(r: ByteReader) returns (point: Option<seq<nat>>)
    requires r.Valid()
    modifies r
    ensures r.Valid() && Yields(GetPoint(old(r.Rest())), point, r.Rest())
  {
    var tag := r.ReadRecord(TAG);
    if tag.None? || tag.value != ACTIVATION_TAG {
      return None;
    }
    point := r.ReadRecord(POINT);
  }

  method ReadActivation(r: ByteReader) returns (a: Option<Activation>)
    requires r.Valid()
    modifies r
    ensures r.Valid() && a == GetActivation(old(r.Rest()))
  {
    if |r.data| - r.pos != ACTIVATION_BYTES {
      return None;
    }
    if GetPoint(r.Rest()).Some? {
      GetPointFits(r.Rest());
    }
    var point := ReadPoint(r);
    if point.None? {
      return None;
    }
    var before := ReadState(r);
    if before.None? {
      return None;
    }
    var current := ReadState(r);
    if current.None? {
      return None;
    }
    PutAllGetAllIf(STAMP, r.Rest());
    var stamp := r.ReadRecord(STAMP);
    if stamp.None? || r.pos != |r.data| {
      return None;
    }
    return Some(ActivationOf(point.value, (before.value, current.value), stamp.value));
  }

  method ReadSitOut(r: ByteReader) returns (o: Option<SitOut>)
    requires r.Valid()
    modifies r
    ensures r.Valid() && o == GetSitOut(old(r.Rest()))
  {
    if |r.data| - r.pos != SIT_OUT_BYTES {
      return None;
    }
    var tag := r.ReadRecord(TAG);
    if tag.None? || tag.value != SIT_OUT_TAG {
      return None;
    }
    PutAllGetAllIf(SIT, r.Rest());
    Powers();
    var vs := r.ReadRecord(SIT);
    if vs.None? {
      return None;
    }
    return Some(SitOut(vs.value[0], vs.value[1], vs.value[2]));
  }

  method ReadTrailer(r: ByteReader) returns (trailer: Option<(Option<Activation>, Option<SitOut>)>)
    requires r.Valid()
    modifies r
    ensures r.Valid() && trailer == GetTrailer(old(r.Rest()))
  {
    if |r.data| - r.pos == SIT_OUT_BYTES {
      var o := ReadSitOut(r);
      return if o.None? then None else Some((None, o));
    }
    if r.pos == |r.data| {
      return Some((None, None));
    }
    var a := ReadActivation(r);
    return if a.None? then None else Some((a, None));
  }

  method ReadParts(r: ByteReader) returns (p: Option<Parts>)
    requires r.Valid()
    modifies r
    ensures r.Valid() && p == GetParts(old(r.Rest()))
  {
    var front := ReadFront(r);
    if front.None? {
      return None;
    }
    var rows := ReadRows(r);
    if rows.None? {
      return None;
    }
    var footer := ReadFooter(r);
    if footer.None? {
      return None;
    }
    var definitions := ReadCatalog(r);
    if definitions.None? {
      return None;
    }
    var trailer := ReadTrailer(r);
    if trailer.None? {
      return None;
    }
    return Some(Parts(front.value, rows.value, footer.value, definitions.value, trailer.value));
  }

  // A snapshot is accepted only if writing it back would succeed.
  method Read(r: ByteReader, fingerprint: Snapshot -> Digest) returns (s: Option<Snapshot>)
    requires r.Valid()
    modifies r
    ensures r.Valid() && s == Decode(fingerprint, old(r.Rest()))
  {
    if |r.data| - r.pos > MAX_SNAPSHOT_BYTES {
      return None;
    }
    var p := ReadParts(r);
    if p.None? {
      return None;
    }
    var w := new ByteWriter();
    var ok := Write(w, fingerprint, Assemble(p.value));
    return if ok then Some(Assemble(p.value)) else None;
  }
}
