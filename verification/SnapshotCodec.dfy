// The snapshot's wire form (write and read of ResyncSnapshot in common/src/Codec.cpp). The two
// optional trailers carry no discriminator: the reader tells them apart by the bytes left over.
module SnapshotCodec {
  import opened Common
  import opened Bytes
  import opened Snapshot

  // ---------------------------------------------------------------- record layouts

  const HEAD: seq<nat> := [4, 2, 2, 2, 2, 2, 2, 4, 1, 2, 4, 1, 2]
  const SPAN: seq<nat> := [4, 2]
  const MIDDLE: seq<nat> := [8, 2]
  const ENEMY: seq<nat> := [2, 2, 2, 4, 4, 4, 4, 4, 4, 4, 1, 2, 2]
  const TAIL: seq<nat> := [4, 4, 4, 4, 4, 4, 8, 8]
  const COUNT: seq<nat> := [2]
  const PLACE: seq<nat> := [2, 2, 2, 2, 2, 2, 4]
  const STATE: seq<nat> := [4, 4, 4, 4, 1, 1, 1, 2, 2, 4, 4] + Twos(256)
  const TAG: seq<nat> := [4, 2, 2]
  const POINT: seq<nat> := [2, 4, 4, 4, 4]
  const STAMP: seq<nat> := [8, 4, 4]
  const SIT: seq<nat> := [2, 2, 4]

  const ACTIVATION_TAG: seq<nat> := [0x5052_4148, 1, 1120]
  const SIT_OUT_TAG: seq<nat> := [0x5449_5342, 1, 8]

  // n two-byte fields.
  function Twos(n: nat): (ws: seq<nat>)
    ensures |ws| == n && forall i :: 0 <= i < n ==> ws[i] == 2
  {
    if n == 0 then [] else [2] + Twos(n - 1)
  }

  lemma Powers()
    ensures Pow256(1) == 0x100 && Pow256(2) == 0x1_0000 && Pow256(4) == 0x1_0000_0000
    ensures Pow256(8) == 0x1_0000_0000_0000_0000
  {
  }

  // Two's complement.
  function Word(x: i32): u32 { if x < 0 then x + U32_RANGE else x }
  function Signed(w: u32): i32 { if w < 0x8000_0000 then w else w - U32_RANGE }

  lemma Associate(a: seq<byte>, b: seq<byte>, c: seq<byte>)
    ensures a + b + c == a + (b + c)
  {
  }

  // ---------------------------------------------------------------- spans

  function PutSpan(p: Span): seq<byte> {
    PutAll(SPAN, [p.offset, |p.bytes|]) + p.bytes
  }

  predicate SpanFits(p: Span) { |p.bytes| <= 8108 }

  function GetSpan(b: seq<byte>): Option<(Span, seq<byte>)> {
    match GetAll(SPAN, b)
    case None => None
    case Some((vs, rest)) =>
      PutAllGetAll(SPAN, b);
      Powers();
      if vs[1] > 8108 || vs[1] > |rest| then None else Some((Span(vs[0], rest[..vs[1]]), rest[vs[1]..]))
  }

  lemma GetPutSpan(p: Span, rest: seq<byte>)
    requires SpanFits(p)
    ensures GetSpan(PutSpan(p) + rest) == Some((p, rest))
  {
    Powers();
    GetAllPutAll(SPAN, [p.offset, |p.bytes|], p.bytes + rest);
    assert PutSpan(p) + rest == PutAll(SPAN, [p.offset, |p.bytes|]) + (p.bytes + rest);
  }

  lemma PutGetSpan(b: seq<byte>)
    requires GetSpan(b).Some?
    ensures var (p, rest) := GetSpan(b).value; SpanFits(p) && b == PutSpan(p) + rest
  {
    PutAllGetAll(SPAN, b);
    var (vs, more) := GetAll(SPAN, b).value;
    assert vs == [vs[0], vs[1]];
    var bytes := more[..vs[1]];
    assert more == bytes + more[vs[1]..];
  }

  // ---------------------------------------------------------------- enemy rows

  function EnemyFields(e: Enemy): (vs: seq<nat>)
    ensures Fits(ENEMY, vs)
  {
    Powers();
    [e.netId, e.battleProgram, e.spawnIndex, e.objectId, e.x, e.y, e.z, e.objectType, Word(e.hp), Word(e.maxHp), e.life,
     e.definition, e.record]
  }

  function EnemyOf(vs: seq<nat>): (e: Enemy)
    requires Fits(ENEMY, vs)
  {
    Powers();
    Enemy(vs[0], vs[1], vs[2], vs[3], vs[4], vs[5], vs[6], vs[7], Signed(vs[8]), Signed(vs[9]), vs[10], vs[11], vs[12])
  }

  lemma EnemyFieldsOf(vs: seq<nat>)
    requires Fits(ENEMY, vs)
    ensures EnemyFields(EnemyOf(vs)) == vs
  {
  }

  function PutEnemy(e: Enemy): seq<byte> { PutAll(ENEMY, EnemyFields(e)) }

  function GetEnemy(b: seq<byte>): Option<(Enemy, seq<byte>)> {
    match GetAll(ENEMY, b)
    case None => None
    case Some((vs, rest)) =>
      PutAllGetAll(ENEMY, b);
      Some((EnemyOf(vs), rest))
  }

  lemma GetPutEnemy(e: Enemy, rest: seq<byte>)
    ensures GetEnemy(PutEnemy(e) + rest) == Some((e, rest))
  {
    GetAllPutAll(ENEMY, EnemyFields(e), rest);
  }

  lemma PutGetEnemy(b: seq<byte>)
    requires GetEnemy(b).Some?
    ensures var (e, rest) := GetEnemy(b).value; b == PutEnemy(e) + rest
  {
    PutAllGetAll(ENEMY, b);
    EnemyFieldsOf(GetAll(ENEMY, b).value.0);
  }

  // ---------------------------------------------------------------- record definitions

  function PutRecords(rs: seq<Record>): (b: seq<byte>)
    ensures |b| == 64 * |rs|
  {
    if rs == [] then [] else rs[0] + PutRecords(rs[1..])
  }

  function GetRecords(n: nat, b: seq<byte>): (rs: seq<Record>)
    requires 64 * n <= |b|
    ensures |rs| == n
    decreases n
  {
    if n == 0 then [] else [b[..64]] + GetRecords(n - 1, b[64..])
  }

  lemma {:induction false} GetPutRecords(rs: seq<Record>, rest: seq<byte>)
    ensures GetRecords(|rs|, PutRecords(rs) + rest) == rs && (PutRecords(rs) + rest)[64 * |rs|..] == rest
    decreases |rs|
  {
    if rs == [] {
      assert PutRecords(rs) + rest == rest;
    } else {
      Split(rs[0], PutRecords(rs[1..]), rest);
      GetPutRecords(rs[1..], rest);
      assert PutRecords(rs) == rs[0] + PutRecords(rs[1..]);
    }
  }

  lemma {:induction false} PutGetRecords(n: nat, b: seq<byte>)
    requires 64 * n <= |b|
    ensures PutRecords(GetRecords(n, b)) == b[..64 * n]
    decreases n
  {
    if n > 0 {
      PutGetRecords(n - 1, b[64..]);
      assert GetRecords(n, b)[1..] == GetRecords(n - 1, b[64..]);
      assert b[..64] + b[64..][..64 * (n - 1)] == b[..64 * n];
    }
  }

  function PlaceFields(l: Location, groupKey: u32): (vs: seq<nat>)
    ensures Fits(PLACE, vs)
  {
    Powers();
    [l.world, l.room, l.door, l.mapProgram, l.battleProgram, l.eventProgram, groupKey]
  }

  function LocationOf(vs: seq<nat>): Location
    requires Fits(PLACE, vs)
  {
    Powers();
    Location(vs[0], vs[1], vs[2], vs[3], vs[4], vs[5])
  }

  function PutPrefix(d: Definition): (b: seq<byte>)
    ensures |b| == 48
  {
    d.layout + PutAll(PLACE, PlaceFields(d.location, d.groupKey))
  }

  function PutDefinition(d: Definition): (b: seq<byte>)
    ensures |b| == 92 + 64 * |d.records|
  {
    PutPrefix(d) + d.header + PutRecords(d.records)
  }

  function WithRecords(layout: Digest, vs: seq<nat>, header: Header, more: seq<byte>): (Definition, seq<byte>)
    requires Fits(PLACE, vs) && 64 * U16At(header, 4) <= |more|
  {
    Powers();
    (Definition(layout, LocationOf(vs), vs[6], header, GetRecords(U16At(header, 4), more)), more[64 * U16At(header, 4)..])
  }

  // The records' count is the header's.
  function GetDefinition(b: seq<byte>): Option<(Definition, seq<byte>)> {
    if |b| < 92 then None
    else match GetAll(PLACE, b[32..])
      case None => None
      case Some((vs, rest)) =>
        PutAllGetAll(PLACE, b[32..]);
        if |rest| < 44 || U16At(rest[..44], 4) > MAX_RECORDS || 64 * U16At(rest[..44], 4) > |rest| - 44 then None
        else Some(WithRecords(b[..32], vs, rest[..44], rest[44..]))
  }

  predicate DefinitionFits(d: Definition) { |d.records| == U16At(d.header, 4) && |d.records| <= MAX_RECORDS }

  lemma Regroup(a: seq<byte>, b: seq<byte>, c: seq<byte>, d: seq<byte>, rest: seq<byte>)
    ensures a + b + c + d + rest == a + (b + (c + (d + rest)))
    ensures (a + (b + (c + (d + rest))))[..|a|] == a && (a + (b + (c + (d + rest))))[|a|..] == b + (c + (d + rest))
    ensures (c + (d + rest))[..|c|] == c && (c + (d + rest))[|c|..] == d + rest
  {
  }

  lemma GetPutDefinition(d: Definition, rest: seq<byte>)
    requires DefinitionFits(d)
    ensures GetDefinition(PutDefinition(d) + rest) == Some((d, rest))
  {
    var vs := PlaceFields(d.location, d.groupKey);
    var place := PutAll(PLACE, vs);
    var records := PutRecords(d.records);
    Regroup(d.layout, place, d.header, records, rest);
    assert PutDefinition(d) + rest == d.layout + place + d.header + records + rest;
    GetAllPutAll(PLACE, vs, d.header + (records + rest));
    GetPutRecords(d.records, rest);
    assert LocationOf(vs) == d.location;
  }

  lemma PutGetDefinition(b: seq<byte>)
    requires GetDefinition(b).Some?
    ensures var (d, rest) := GetDefinition(b).value; DefinitionFits(d) && b == PutDefinition(d) + rest
  {
    var (vs, rest) := GetAll(PLACE, b[32..]).value;
    PutAllGetAll(PLACE, b[32..]);
    var count := U16At(rest[..44], 4);
    var more := rest[44..];
    PutGetRecords(count, more);
    assert PlaceFields(LocationOf(vs), vs[6]) == vs by { Powers(); }
    Regroup(b[..32], PutAll(PLACE, vs), rest[..44], more[..64 * count], more[64 * count..]);
    assert rest == rest[..44] + (more[..64 * count] + more[64 * count..]);
    assert b == b[..32] + b[32..];
  }

  // ---------------------------------------------------------------- the activation trailer

  function StateFields(s: ActivationState): (vs: seq<nat>)
    ensures |vs| == |STATE|
  {
    [s.flags, s.currentCount, s.initialCount, s.cooldown, s.stage, s.activation, s.nativeType, s.headerId, s.recordCount,
     Word(s.cacheRoom), Word(s.cacheAge)] + s.cacheIds
  }

  predicate StateFits(vs: seq<nat>) {
    && |vs| == 267 && vs[0] < U32_RANGE && vs[1] < U32_RANGE && vs[2] < U32_RANGE && vs[3] < U32_RANGE
    && vs[4] < 256 && vs[5] < 256 && vs[6] < 256 && vs[7] < U16_RANGE && vs[8] < U16_RANGE
    && vs[9] < U32_RANGE && vs[10] < U32_RANGE && forall i :: 11 <= i < 267 ==> vs[i] < U16_RANGE
  }

  lemma FitsState(vs: seq<nat>)
    requires Fits(STATE, vs)
    ensures StateFits(vs)
  {
  }

  function CacheOf(vs: seq<nat>): (c: CacheIds)
    requires StateFits(vs)
  {
    seq(256, i requires 0 <= i < 256 => vs[11 + i])
  }

  function StateOf(vs: seq<nat>): ActivationState
    requires Fits(STATE, vs)
  {
    FitsState(vs);
    ActivationState(vs[0], vs[1], vs[2], vs[3], vs[4], vs[5], vs[6], vs[7], vs[8], Signed(vs[9]), Signed(vs[10]), CacheOf(vs))
  }

  lemma StateOfFields(s: ActivationState)
    ensures Fits(STATE, StateFields(s)) && StateOf(StateFields(s)) == s
  {
  }

  lemma StateFieldsOf(vs: seq<nat>)
    requires Fits(STATE, vs)
    ensures StateFields(StateOf(vs)) == vs
  {
  }

  function PutState(s: ActivationState): seq<byte> { PutAll(STATE, StateFields(s)) }

  function GetState(b: seq<byte>): Option<(ActivationState, seq<byte>)> {
    match GetAll(STATE, b)
    case None => None
    case Some((vs, rest)) =>
      PutAllGetAll(STATE, b);
      Some((StateOf(vs), rest))
  }

  lemma GetPutState(s: ActivationState, rest: seq<byte>)
    ensures GetState(PutState(s) + rest) == Some((s, rest))
  {
    StateOfFields(s);
    GetAllPutAll(STATE, StateFields(s), rest);
  }

  lemma PutGetState(b: seq<byte>)
    requires GetState(b).Some?
    ensures var (s, rest) := GetState(b).value; b == PutState(s) + rest
  {
    PutAllGetAll(STATE, b);
    StateFieldsOf(GetAll(STATE, b).value.0);
  }

  lemma {:induction false} WidthJoin(a: seq<nat>, b: seq<nat>)
    ensures Width(a + b) == Width(a) + Width(b)
  {
    if a == [] {
      assert a + b == b;
    } else {
      assert (a + b)[1..] == a[1..] + b;
      WidthJoin(a[1..], b);
    }
  }

  lemma {:induction false} WidthTwos(n: nat)
    ensures Width(Twos(n)) == 2 * n
  {
    if n > 0 {
      assert Twos(n)[1..] == Twos(n - 1);
      WidthTwos(n - 1);
    }
  }

  lemma ElevenWidth()
    ensures Width([4, 4, 4, 4, 1, 1, 1, 2, 2, 4, 4]) == 31
  {
    WidthJoin([4, 4, 4, 4, 1, 1], [1, 2, 2, 4, 4]);
    assert [4, 4, 4, 4, 1, 1, 1, 2, 2, 4, 4] == [4, 4, 4, 4, 1, 1] + [1, 2, 2, 4, 4];
    assert Width([4, 4, 4, 4, 1, 1]) == 18;
    assert Width([1, 2, 2, 4, 4]) == 13;
  }

  lemma StateSize(s: ActivationState)
    ensures |PutState(s)| == 543
  {
    ElevenWidth();
    WidthJoin([4, 4, 4, 4, 1, 1, 1, 2, 2, 4, 4], Twos(256));
    WidthTwos(256);
  }

  function PutActivation(a: Activation): seq<byte> {
    PutAll(TAG, ACTIVATION_TAG)
    + (PutAll(POINT, [a.definition, a.x, a.y, a.z, a.w])
       + (PutState(a.before) + (PutState(a.current) + PutAll(STAMP, [a.firstUpdate, a.hostTransition, a.hostLoad]))))
  }

  lemma ActivationSize(a: Activation)
    ensures |PutActivation(a)| == ACTIVATION_BYTES
  {
    StateSize(a.before);
    StateSize(a.current);
  }

  // The tagged values at the front of b, and what follows.
  function GetPoint(b: seq<byte>): Option<(seq<nat>, seq<byte>)> {
    match GetAll(TAG, b)
    case None => None
    case Some((tag, rest)) => if tag == ACTIVATION_TAG then GetAll(POINT, rest) else None
  }

  function GetStates(b: seq<byte>): Option<((ActivationState, ActivationState), seq<byte>)> {
    match GetState(b)
    case None => None
    case Some((before, rest)) =>
      match GetState(rest)
      case None => None
      case Some((current, more)) => Some(((before, current), more))
  }

  function ActivationOf(point: seq<nat>, states: (ActivationState, ActivationState), stamp: seq<nat>): Activation
    requires Fits(POINT, point) && Fits(STAMP, stamp)
  {
    Powers();
    Activation(point[0], point[1], point[2], point[3], point[4], states.0, states.1, stamp[0], stamp[1], stamp[2])
  }

  lemma GetPointFits(b: seq<byte>)
    requires GetPoint(b).Some?
    ensures var (point, rest) := GetPoint(b).value;
            Fits(POINT, point) && b == PutAll(TAG, ACTIVATION_TAG) + (PutAll(POINT, point) + rest)
  {
    PutAllGetAll(TAG, b);
    PutAllGetAll(POINT, GetAll(TAG, b).value.1);
  }

  function GetActivation(b: seq<byte>): Option<Activation> {
    if |b| != ACTIVATION_BYTES then None
    else match GetPoint(b)
      case None => None
      case Some((point, rest)) =>
        GetPointFits(b);
        match GetStates(rest)
        case None => None
        case Some((states, more)) =>
          match GetAll(STAMP, more)
          case None => None
          case Some((stamp, end)) =>
            PutAllGetAll(STAMP, more);
            if end == [] then Some(ActivationOf(point, states, stamp)) else None
  }

  lemma TagFits(tag: seq<nat>)
    requires tag == ACTIVATION_TAG || tag == SIT_OUT_TAG
    ensures Fits(TAG, tag)
  {
  }

  lemma GetPutPoint(point: seq<nat>, rest: seq<byte>)
    requires Fits(POINT, point)
    ensures GetPoint(PutAll(TAG, ACTIVATION_TAG) + (PutAll(POINT, point) + rest)) == Some((point, rest))
  {
    TagFits(ACTIVATION_TAG);
    GetAllPutAll(TAG, ACTIVATION_TAG, PutAll(POINT, point) + rest);
    GetAllPutAll(POINT, point, rest);
  }

  lemma GetPutStates(before: ActivationState, current: ActivationState, rest: seq<byte>)
    ensures GetStates(PutState(before) + (PutState(current) + rest)) == Some(((before, current), rest))
  {
    GetPutState(before, PutState(current) + rest);
    GetPutState(current, rest);
  }

  lemma ActivationFieldsFit(a: Activation)
    ensures Fits(POINT, [a.definition, a.x, a.y, a.z, a.w]) && Fits(STAMP, [a.firstUpdate, a.hostTransition, a.hostLoad])
  {
  }

  lemma GetPutActivation(a: Activation)
    ensures GetActivation(PutActivation(a)) == Some(a)
  {
    ActivationSize(a);
    ActivationFieldsFit(a);
    var point := [a.definition, a.x, a.y, a.z, a.w];
    var stamp := [a.firstUpdate, a.hostTransition, a.hostLoad];
    assert ActivationOf(point, (a.before, a.current), stamp) == a;
    var tail := PutState(a.before) + (PutState(a.current) + PutAll(STAMP, stamp));
    GetPutPoint(point, tail);
    GetPutStates(a.before, a.current, PutAll(STAMP, stamp));
    GetAllPutAll(STAMP, stamp, []);
    assert PutAll(STAMP, stamp) + [] == PutAll(STAMP, stamp);
  }

  lemma PutGetStates(b: seq<byte>)
    requires GetStates(b).Some?
    ensures var ((before, current), rest) := GetStates(b).value;
            b == PutState(before) + (PutState(current) + rest)
  {
    PutGetState(b);
    PutGetState(GetState(b).value.1);
  }

  lemma PutGetActivation(b: seq<byte>)
    requires GetActivation(b).Some?
    ensures PutActivation(GetActivation(b).value) == b
  {
    GetPointFits(b);
    var (point, rest) := GetPoint(b).value;
    PutGetStates(rest);
    var (states, more) := GetStates(rest).value;
    PutAllGetAll(STAMP, more);
    var stamp := GetAll(STAMP, more).value.0;
    assert point == [point[0], point[1], point[2], point[3], point[4]];
    assert stamp == [stamp[0], stamp[1], stamp[2]];
    assert more == PutAll(STAMP, stamp);
  }

  // ---------------------------------------------------------------- the sit-out trailer

  function PutSitOut(o: SitOut): (b: seq<byte>)
    ensures |b| == SIT_OUT_BYTES
  {
    PutAll(TAG, SIT_OUT_TAG) + PutAll(SIT, [o.arena, o.bossNetId, o.bossObjectId])
  }

  function GetSitOut(b: seq<byte>): Option<SitOut> {
    if |b| != SIT_OUT_BYTES then None
    else match GetAll(TAG, b)
      case None => None
      case Some((tag, rest)) =>
        if tag != SIT_OUT_TAG then None
        else match GetAll(SIT, rest)
          case None => None
          case Some((vs, end)) =>
            PutAllGetAll(SIT, rest);
            Powers();
            Some(SitOut(vs[0], vs[1], vs[2]))
  }

  lemma GetPutSitOut(o: SitOut)
    ensures GetSitOut(PutSitOut(o)) == Some(o)
  {
    var vs := [o.arena, o.bossNetId, o.bossObjectId];
    TagFits(SIT_OUT_TAG);
    Powers();
    GetAllPutAll(TAG, SIT_OUT_TAG, PutAll(SIT, vs));
    GetAllPutAll(SIT, vs, []);
    assert PutAll(SIT, vs) + [] == PutAll(SIT, vs);
  }

  lemma PutGetSitOut(b: seq<byte>)
    requires GetSitOut(b).Some?
    ensures PutSitOut(GetSitOut(b).value) == b
  {
    PutAllGetAll(TAG, b);
    var rest := GetAll(TAG, b).value.1;
    PutAllGetAll(SIT, rest);
    var (vs, end) := GetAll(SIT, rest).value;
    assert vs == [vs[0], vs[1], vs[2]];
    assert |rest| == 8 && end == [];
    assert rest == PutAll(SIT, vs);
  }

  // ---------------------------------------------------------------- telling the trailers apart

  function PutTrailer(a: Option<Activation>, o: Option<SitOut>): seq<byte> {
    (if a.Some? then PutActivation(a.value) else []) + (if o.Some? then PutSitOut(o.value) else [])
  }

  // What the remaining bytes hold: nothing, a sit-out by its size, or else an activation.
  function GetTrailer(b: seq<byte>): Option<(Option<Activation>, Option<SitOut>)> {
    if |b| == SIT_OUT_BYTES then
      (match GetSitOut(b)
       case None => None
       case Some(o) => Some((None, Some(o))))
    else if b == [] then Some((None, None))
    else match GetActivation(b)
      case None => None
      case Some(a) => Some((Some(a), None))
  }

  lemma GetPutTrailer(a: Option<Activation>, o: Option<SitOut>)
    requires a.None? || o.None?
    ensures GetTrailer(PutTrailer(a, o)) == Some((a, o))
  {
    if o.Some? {
      GetPutSitOut(o.value);
      assert PutTrailer(a, o) == PutSitOut(o.value);
    } else if a.Some? {
      ActivationSize(a.value);
      GetPutActivation(a.value);
      assert PutTrailer(a, o) == PutActivation(a.value);
    }
  }

  lemma PutGetTrailer(b: seq<byte>)
    requires GetTrailer(b).Some?
    ensures var (a, o) := GetTrailer(b).value; PutTrailer(a, o) == b
  {
    if |b| == SIT_OUT_BYTES {
      PutGetSitOut(b);
    } else if b != [] {
      PutGetActivation(b);
    }
  }

  // ---------------------------------------------------------------- the four fixed stages

  // Room, hold and progress.
  function HeadFields(r: Room, h: Hold, p: Progress): (vs: seq<nat>)
    ensures |vs| == |HEAD|
  {
    var l := r.location;
    [r.epoch, l.world, l.room, l.door, l.mapProgram, l.battleProgram, l.eventProgram,
     h.epoch, if h.active then 1 else 0, h.eventProgram, p.version, if p.full then 1 else 0, |p.spans|]
  }

  function PutFront(r: Room, h: Hold, p: Progress): seq<byte> {
    PutAll(HEAD, HeadFields(r, h, p)) + PutList(PutSpan, p.spans)
  }

  function RoomOf(vs: seq<nat>): Room
    requires Fits(HEAD, vs)
  {
    Powers();
    Room(vs[0], Location(vs[1], vs[2], vs[3], vs[4], vs[5], vs[6]))
  }

  function HoldOf(vs: seq<nat>): Hold
    requires Fits(HEAD, vs)
  {
    Powers();
    Hold(vs[7], vs[8] != 0, vs[9])
  }

  function VersionOf(vs: seq<nat>): u32
    requires Fits(HEAD, vs)
  {
    Powers();
    vs[10]
  }

  predicate HeadLegal(vs: seq<nat>) {
    |vs| == 13 && vs[8] <= 1 && vs[11] == 1 && vs[12] <= 8108
  }

  function GetFront(b: seq<byte>): Option<((Room, Hold, Progress), seq<byte>)> {
    match GetAll(HEAD, b)
    case None => None
    case Some((vs, rest)) =>
      PutAllGetAll(HEAD, b);
      if !HeadLegal(vs) then None
      else match GetList(GetSpan, vs[12], rest)
        case None => None
        case Some((spans, more)) => Some(((RoomOf(vs), HoldOf(vs), Progress(VersionOf(vs), true, spans)), more))
  }

  predicate ProgressFits(p: Progress) {
    p.full && |p.spans| <= 8108 && forall i :: 0 <= i < |p.spans| ==> SpanFits(p.spans[i])
  }

  lemma SpansRead(ps: seq<Span>, rest: seq<byte>)
    requires forall i :: 0 <= i < |ps| ==> SpanFits(ps[i])
    ensures GetList(GetSpan, |ps|, PutList(PutSpan, ps) + rest) == Some((ps, rest))
  {
    forall i, tail | 0 <= i < |ps| ensures GetSpan(PutSpan(ps[i]) + tail) == Some((ps[i], tail)) {
      GetPutSpan(ps[i], tail);
    }
    GetPutList(PutSpan, GetSpan, ps, rest);
  }

  lemma SpansWritten(n: nat, b: seq<byte>)
    requires GetList(GetSpan, n, b).Some?
    ensures var (ps, rest) := GetList(GetSpan, n, b).value; |ps| == n && b == PutList(PutSpan, ps) + rest
  {
    forall c | GetSpan(c).Some? ensures c == PutSpan(GetSpan(c).value.0) + GetSpan(c).value.1 {
      PutGetSpan(c);
    }
    PutGetList(PutSpan, GetSpan, n, b);
  }

  // The fields read back are the fields written, given their number of spans.
  lemma HeadFieldsOf(vs: seq<nat>, spans: seq<Span>)
    requires Fits(HEAD, vs) && HeadLegal(vs) && |spans| == vs[12]
    ensures HeadFields(RoomOf(vs), HoldOf(vs), Progress(VersionOf(vs), true, spans)) == vs
  {
  }

  lemma HeadFieldsFit(r: Room, h: Hold, p: Progress)
    requires ProgressFits(p)
    ensures var vs := HeadFields(r, h, p);
            Fits(HEAD, vs) && HeadLegal(vs) && RoomOf(vs) == r && HoldOf(vs) == h && VersionOf(vs) == p.version
  {
  }

  lemma GetFrontIs(vs: seq<nat>, spans: seq<Span>, b: seq<byte>, rest: seq<byte>, more: seq<byte>)
    requires GetAll(HEAD, b) == Some((vs, rest)) && Fits(HEAD, vs) && HeadLegal(vs)
    requires GetList(GetSpan, vs[12], rest) == Some((spans, more))
    ensures GetFront(b) == Some(((RoomOf(vs), HoldOf(vs), Progress(VersionOf(vs), true, spans)), more))
  {
  }

  lemma GetPutFront(r: Room, h: Hold, p: Progress, rest: seq<byte>)
    requires ProgressFits(p)
    ensures GetFront(PutFront(r, h, p) + rest) == Some(((r, h, p), rest))
  {
    var vs := HeadFields(r, h, p);
    var spans := PutList(PutSpan, p.spans);
    HeadFieldsFit(r, h, p);
    SpansRead(p.spans, rest);
    Associate(PutAll(HEAD, vs), spans, rest);
    GetAllPutAll(HEAD, vs, spans + rest);
    GetFrontIs(vs, p.spans, PutFront(r, h, p) + rest, spans + rest, rest);
  }

  lemma PutGetFront(b: seq<byte>)
    requires GetFront(b).Some?
    ensures var ((r, h, p), rest) := GetFront(b).value; b == PutFront(r, h, p) + rest
  {
    PutAllGetAll(HEAD, b);
    var (vs, rest) := GetAll(HEAD, b).value;
    SpansWritten(vs[12], rest);
    var (spans, more) := GetList(GetSpan, vs[12], rest).value;
    HeadFieldsOf(vs, spans);
    Associate(PutAll(HEAD, vs), PutList(PutSpan, spans), more);
  }

  // The HP sequence and the enemy rows.
  function PutRows(hp: u64, es: seq<Enemy>): seq<byte> {
    PutAll(MIDDLE, [hp, |es|]) + PutList(PutEnemy, es)
  }

  function HpOf(vs: seq<nat>): u64
    requires Fits(MIDDLE, vs)
  {
    Powers();
    vs[0]
  }

  function GetRows(b: seq<byte>): Option<((u64, seq<Enemy>), seq<byte>)> {
    match GetAll(MIDDLE, b)
    case None => None
    case Some((vs, rest)) =>
      PutAllGetAll(MIDDLE, b);
      if vs[1] > MAX_ENEMIES || vs[1] * 39 > |rest| then None
      else match GetList(GetEnemy, vs[1], rest)
        case None => None
        case Some((es, more)) => Some(((HpOf(vs), es), more))
  }

  lemma EnemyWidth()
    ensures Width(ENEMY) == 39
  {
  }

  lemma RowsSize(es: seq<Enemy>)
    ensures |PutList(PutEnemy, es)| == 39 * |es|
  {
    EnemyWidth();
    ListSize(PutEnemy, es, 39);
  }

  lemma RowsRead(es: seq<Enemy>, rest: seq<byte>)
    ensures GetList(GetEnemy, |es|, PutList(PutEnemy, es) + rest) == Some((es, rest))
  {
    forall i, tail | 0 <= i < |es| ensures GetEnemy(PutEnemy(es[i]) + tail) == Some((es[i], tail)) {
      GetPutEnemy(es[i], tail);
    }
    GetPutList(PutEnemy, GetEnemy, es, rest);
  }

  lemma RowsWritten(n: nat, b: seq<byte>)
    requires GetList(GetEnemy, n, b).Some?
    ensures var (es, rest) := GetList(GetEnemy, n, b).value; |es| == n && b == PutList(PutEnemy, es) + rest
  {
    forall c | GetEnemy(c).Some? ensures c == PutEnemy(GetEnemy(c).value.0) + GetEnemy(c).value.1 {
      PutGetEnemy(c);
    }
    PutGetList(PutEnemy, GetEnemy, n, b);
  }

  lemma MiddleFits(hp: u64, n: nat)
    requires n <= MAX_ENEMIES
    ensures Fits(MIDDLE, [hp, n])
  {
  }

  lemma GetRowsIs(hp: u64, n: nat, es: seq<Enemy>, rest: seq<byte>, more: seq<byte>)
    requires n <= MAX_ENEMIES && n * 39 <= |rest| && GetList(GetEnemy, n, rest) == Some((es, more))
    ensures GetRows(PutAll(MIDDLE, [hp, n]) + rest) == Some(((hp, es), more))
  {
    MiddleFits(hp, n);
    GetAllPutAll(MIDDLE, [hp, n], rest);
  }

  lemma RowsBytes(hp: u64, es: seq<Enemy>, rest: seq<byte>)
    ensures PutRows(hp, es) + rest == PutAll(MIDDLE, [hp, |es|]) + (PutList(PutEnemy, es) + rest)
  {
    Associate(PutAll(MIDDLE, [hp, |es|]), PutList(PutEnemy, es), rest);
  }

  lemma RowsLong(es: seq<Enemy>, rest: seq<byte>)
    ensures |es| * 39 <= |PutList(PutEnemy, es) + rest|
  {
  }

  lemma GetPutRows(hp: u64, es: seq<Enemy>, rest: seq<byte>)
    requires |es| <= MAX_ENEMIES
    ensures GetRows(PutRows(hp, es) + rest) == Some(((hp, es), rest))
  {
    RowsLong(es, rest);
    RowsRead(es, rest);
    RowsBytes(hp, es, rest);
    GetRowsIs(hp, |es|, es, PutList(PutEnemy, es) + rest, rest);
  }

  lemma PutGetRows(b: seq<byte>)
    requires GetRows(b).Some?
    ensures var ((hp, es), rest) := GetRows(b).value; b == PutRows(hp, es) + rest
  {
    PutAllGetAll(MIDDLE, b);
    var (vs, rest) := GetAll(MIDDLE, b).value;
    RowsWritten(vs[1], rest);
    var (es, more) := GetList(GetEnemy, vs[1], rest).value;
    assert vs == [vs[0], |es|];
    Associate(PutAll(MIDDLE, vs), PutList(PutEnemy, es), more);
  }

  // Census counts, coverage, serials, frames, fingerprint.
  datatype Footer = Footer(
    living: u32, dead: u32, coverage: u32, generation: u32, transition: u32, load: u32,
    frameBefore: u64, frameAfter: u64, fingerprint: Digest)

  function FooterFields(f: Footer): seq<nat> {
    [f.living, f.dead, f.coverage, f.generation, f.transition, f.load, f.frameBefore, f.frameAfter]
  }

  function PutFooter(f: Footer): (b: seq<byte>)
    ensures |b| == 72
  {
    PutAll(TAIL, FooterFields(f)) + f.fingerprint
  }

  function FooterOf(vs: seq<nat>, fingerprint: Digest): Footer
    requires Fits(TAIL, vs)
  {
    Powers();
    Footer(vs[0], vs[1], vs[2], vs[3], vs[4], vs[5], vs[6], vs[7], fingerprint)
  }

  function GetFooter(b: seq<byte>): Option<(Footer, seq<byte>)> {
    match GetAll(TAIL, b)
    case None => None
    case Some((vs, rest)) =>
      PutAllGetAll(TAIL, b);
      if |rest| < 32 then None else Some((FooterOf(vs, rest[..32]), rest[32..]))
  }

  lemma FooterFieldsFit(f: Footer)
    ensures Fits(TAIL, FooterFields(f)) && FooterOf(FooterFields(f), f.fingerprint) == f
  {
  }

  lemma GetPutFooter(f: Footer, rest: seq<byte>)
    ensures GetFooter(PutFooter(f) + rest) == Some((f, rest))
  {
    FooterFieldsFit(f);
    Associate(PutAll(TAIL, FooterFields(f)), f.fingerprint, rest);
    GetAllPutAll(TAIL, FooterFields(f), f.fingerprint + rest);
    assert (f.fingerprint + rest)[..32] == f.fingerprint && (f.fingerprint + rest)[32..] == rest;
  }

  lemma PutGetFooter(b: seq<byte>)
    requires GetFooter(b).Some?
    ensures var (f, rest) := GetFooter(b).value; b == PutFooter(f) + rest
  {
    PutAllGetAll(TAIL, b);
    var (vs, rest) := GetAll(TAIL, b).value;
    var us := FooterFields(FooterOf(vs, rest[..32]));
    forall i | 0 <= i < 8 ensures us[i] == vs[i] {
    }
    assert us == vs;
    assert rest == rest[..32] + rest[32..];
    assert PutAll(TAIL, vs) + (rest[..32] + rest[32..]) == PutAll(TAIL, vs) + rest[..32] + rest[32..];
  }

  // The record definitions. The reader's running record limit fails exactly when the total does.
  function PutCatalog(ds: seq<Definition>): seq<byte> {
    PutAll(COUNT, [|ds|]) + PutList(PutDefinition, ds)
  }

  function GetCatalog(b: seq<byte>): Option<(seq<Definition>, seq<byte>)> {
    match GetAll(COUNT, b)
    case None => None
    case Some((vs, rest)) =>
      PutAllGetAll(COUNT, b);
      if vs[0] > MAX_DEFINITIONS || vs[0] * 92 > |rest| then None
      else match GetList(GetDefinition, vs[0], rest)
        case None => None
        case Some((ds, more)) => if RecordTotal(ds) > MAX_TOTAL_RECORDS then None else Some((ds, more))
  }

  predicate CatalogFits(ds: seq<Definition>) {
    && |ds| <= MAX_DEFINITIONS && RecordTotal(ds) <= MAX_TOTAL_RECORDS
    && forall i :: 0 <= i < |ds| ==> DefinitionFits(ds[i])
  }

  lemma {:induction false} CatalogSize(ds: seq<Definition>)
    ensures |PutList(PutDefinition, ds)| == 92 * |ds| + 64 * RecordTotal(ds)
  {
    if ds != [] {
      CatalogSize(ds[1..]);
    }
  }

  lemma CatalogRead(ds: seq<Definition>, rest: seq<byte>)
    requires CatalogFits(ds)
    ensures GetList(GetDefinition, |ds|, PutList(PutDefinition, ds) + rest) == Some((ds, rest))
  {
    forall i, tail | 0 <= i < |ds| ensures GetDefinition(PutDefinition(ds[i]) + tail) == Some((ds[i], tail)) {
      GetPutDefinition(ds[i], tail);
    }
    GetPutList(PutDefinition, GetDefinition, ds, rest);
  }

  lemma CatalogWritten(n: nat, b: seq<byte>)
    requires GetList(GetDefinition, n, b).Some?
    ensures var (ds, rest) := GetList(GetDefinition, n, b).value; |ds| == n && b == PutList(PutDefinition, ds) + rest
  {
    forall c | GetDefinition(c).Some? ensures c == PutDefinition(GetDefinition(c).value.0) + GetDefinition(c).value.1 {
      PutGetDefinition(c);
    }
    PutGetList(PutDefinition, GetDefinition, n, b);
  }

  lemma CountFits(n: nat)
    requires n <= MAX_DEFINITIONS
    ensures Fits(COUNT, [n])
  {
  }

  lemma GetCatalogIs(n: nat, ds: seq<Definition>, b: seq<byte>, rest: seq<byte>, more: seq<byte>)
    requires GetAll(COUNT, b) == Some(([n], rest)) && n <= MAX_DEFINITIONS && n * 92 <= |rest|
    requires GetList(GetDefinition, n, rest) == Some((ds, more)) && RecordTotal(ds) <= MAX_TOTAL_RECORDS
    ensures GetCatalog(b) == Some((ds, more))
  {
  }

  lemma GetPutCatalog(ds: seq<Definition>, rest: seq<byte>)
    requires CatalogFits(ds)
    ensures GetCatalog(PutCatalog(ds) + rest) == Some((ds, rest))
  {
    var list := PutList(PutDefinition, ds);
    CountFits(|ds|);
    CatalogSize(ds);
    CatalogRead(ds, rest);
    Associate(PutAll(COUNT, [|ds|]), list, rest);
    GetAllPutAll(COUNT, [|ds|], list + rest);
    GetCatalogIs(|ds|, ds, PutCatalog(ds) + rest, list + rest, rest);
  }

  lemma PutGetCatalog(b: seq<byte>)
    requires GetCatalog(b).Some?
    ensures var (ds, rest) := GetCatalog(b).value; b == PutCatalog(ds) + rest
  {
    PutAllGetAll(COUNT, b);
    var (vs, rest) := GetAll(COUNT, b).value;
    CatalogWritten(vs[0], rest);
    var (ds, more) := GetList(GetDefinition, vs[0], rest).value;
    assert vs == [|ds|];
    Associate(PutAll(COUNT, vs), PutList(PutDefinition, ds), more);
  }

  // ---------------------------------------------------------------- the whole

  function FooterFrom(s: Snapshot): Footer {
    Footer(s.living, s.dead, s.coverage, s.generation, s.transition, s.load, s.frameBefore, s.frameAfter, s.fingerprint)
  }

  function Encode(s: Snapshot): seq<byte> {
    PutFront(s.room, s.hold, s.progress)
    + (PutRows(s.hpSequence, s.enemies)
       + (PutFooter(FooterFrom(s)) + (PutCatalog(s.definitions) + PutTrailer(s.activation, s.sitOut))))
  }

  // What the writer demands; the reader ends by writing what it read.
  predicate Writable(fingerprint: Snapshot -> Digest, s: Snapshot) {
    Valid(s) && s.fingerprint == fingerprint(s) && |Encode(s)| <= MAX_SNAPSHOT_BYTES
  }

  // The five stages of the reader, each where the one before it ended.
  datatype Parts = Parts(
    front: (Room, Hold, Progress), rows: (u64, seq<Enemy>), footer: Footer, definitions: seq<Definition>,
    trailer: (Option<Activation>, Option<SitOut>))

  function GetParts(b: seq<byte>): Option<Parts> {
    match GetFront(b)
    case None => None
    case Some((front, b1)) =>
      match GetRows(b1)
      case None => None
      case Some((rows, b2)) =>
        match GetFooter(b2)
        case None => None
        case Some((footer, b3)) =>
          match GetCatalog(b3)
          case None => None
          case Some((definitions, b4)) =>
            match GetTrailer(b4)
            case None => None
            case Some(trailer) => Some(Parts(front, rows, footer, definitions, trailer))
  }

  function PartsOf(s: Snapshot): Parts {
    Parts((s.room, s.hold, s.progress), (s.hpSequence, s.enemies), FooterFrom(s), s.definitions, (s.activation, s.sitOut))
  }

  function Assemble(p: Parts): Snapshot {
    Snapshot(p.front.0, p.front.1, p.front.2, p.rows.0, p.rows.1,
             p.footer.living, p.footer.dead, p.footer.coverage, p.footer.generation, p.footer.transition, p.footer.load,
             p.footer.frameBefore, p.footer.frameAfter, p.footer.fingerprint,
             p.definitions, p.trailer.0, p.trailer.1)
  }

  function Decode(fingerprint: Snapshot -> Digest, b: seq<byte>): Option<Snapshot> {
    if |b| > MAX_SNAPSHOT_BYTES then None
    else match GetParts(b)
      case None => None
      case Some(p) => if Writable(fingerprint, Assemble(p)) then Some(Assemble(p)) else None
  }

  lemma GetPartsIs(b: seq<byte>, b1: seq<byte>, b2: seq<byte>, b3: seq<byte>, b4: seq<byte>, p: Parts)
    requires GetFront(b) == Some((p.front, b1)) && GetRows(b1) == Some((p.rows, b2)) && GetFooter(b2) == Some((p.footer, b3))
    requires GetCatalog(b3) == Some((p.definitions, b4)) && GetTrailer(b4) == Some(p.trailer)
    ensures GetParts(b) == Some(p)
  {
  }

  lemma GetPutParts(s: Snapshot)
    requires ProgressFits(s.progress) && |s.enemies| <= MAX_ENEMIES && CatalogFits(s.definitions)
    requires s.activation.None? || s.sitOut.None?
    ensures GetParts(Encode(s)) == Some(PartsOf(s))
  {
    var b4 := PutTrailer(s.activation, s.sitOut);
    var b3 := PutCatalog(s.definitions) + b4;
    var b2 := PutFooter(FooterFrom(s)) + b3;
    var b1 := PutRows(s.hpSequence, s.enemies) + b2;
    GetPutFront(s.room, s.hold, s.progress, b1);
    GetPutRows(s.hpSequence, s.enemies, b2);
    GetPutFooter(FooterFrom(s), b3);
    GetPutCatalog(s.definitions, b4);
    GetPutTrailer(s.activation, s.sitOut);
    GetPartsIs(Encode(s), b1, b2, b3, b4, PartsOf(s));
  }

  lemma PutGetParts(b: seq<byte>)
    requires GetParts(b).Some?
    ensures Encode(Assemble(GetParts(b).value)) == b
  {
    var (front, b1) := GetFront(b).value;
    var (rows, b2) := GetRows(b1).value;
    var (footer, b3) := GetFooter(b2).value;
    var (definitions, b4) := GetCatalog(b3).value;
    PutGetFront(b);
    PutGetRows(b1);
    PutGetFooter(b2);
    PutGetCatalog(b3);
    PutGetTrailer(b4);
    assert FooterFrom(Assemble(GetParts(b).value)) == footer;
  }

  // ---------------------------------------------------------------- the exact size

  function Sum(sizes: seq<nat>): nat {
    if sizes == [] then 0 else sizes[0] + Sum(sizes[1..])
  }

  lemma {:induction false} SumJoin(a: seq<nat>, b: seq<nat>)
    ensures Sum(a + b) == Sum(a) + Sum(b)
  {
    if a == [] {
      assert a + b == b;
    } else {
      assert (a + b)[1..] == a[1..] + b;
      SumJoin(a[1..], b);
    }
  }

  // The checked running total is the plain sum, and fails exactly past the limit.
  lemma {:induction false} RunningIsSum(total: nat, sizes: seq<nat>)
    requires total <= MAX_SNAPSHOT_BYTES
    ensures Running(total, sizes) == if total + Sum(sizes) <= MAX_SNAPSHOT_BYTES then Some(total + Sum(sizes)) else None
    decreases |sizes|
  {
    if sizes != [] && sizes[0] <= MAX_SNAPSHOT_BYTES - total {
      RunningIsSum(total + sizes[0], sizes[1..]);
    }
  }

  lemma {:induction false} SpansAreTerms(ps: seq<Span>)
    ensures |PutList(PutSpan, ps)| == Sum(SpanSizes(ps))
  {
    if ps != [] {
      SpansAreTerms(ps[1..]);
      SpanBytes(ps[0]);
      PutMore(PutSpan, ps);
    }
  }

  lemma PutMore<T>(put: T -> seq<byte>, xs: seq<T>)
    requires xs != []
    ensures PutList(put, xs) == put(xs[0]) + PutList(put, xs[1..])
  {
  }

  lemma SpanBytes(p: Span)
    ensures |PutSpan(p)| == 6 + |p.bytes|
  {
  }

  lemma {:induction false} DefinitionsAreTerms(ds: seq<Definition>)
    ensures Sum(DefinitionSizes(ds)) == 92 * |ds| + 64 * RecordTotal(ds)
  {
    if ds != [] {
      DefinitionsAreTerms(ds[1..]);
    }
  }

  lemma HeadWidth()
    ensures Width(HEAD) == 30
  {
  }

  lemma MiddleWidth()
    ensures Width(MIDDLE) == 10
  {
  }

  lemma CountWidth()
    ensures Width(COUNT) == 2
  {
  }

  lemma TrailerSize(a: Option<Activation>, o: Option<SitOut>)
    ensures |PutTrailer(a, o)| == (if a.Some? then ACTIVATION_BYTES else 0) + (if o.Some? then SIT_OUT_BYTES else 0)
  {
    if a.Some? {
      ActivationSize(a.value);
    }
  }

  lemma TermsSum(s: Snapshot)
    ensures Sum(SizeTerms(s)) ==
            (if s.activation.Some? then ACTIVATION_BYTES else 0) + (if s.sitOut.Some? then SIT_OUT_BYTES else 0)
            + Sum(SpanSizes(s.progress.spans)) + 39 * |s.enemies|
            + (if s.coverage == COMPLETE then 0 else Sum(DefinitionSizes(s.definitions)))
  {
    var a: seq<nat> := if s.activation.Some? then [ACTIVATION_BYTES] else [];
    var b: seq<nat> := if s.sitOut.Some? then [SIT_OUT_BYTES] else [];
    var c := SpanSizes(s.progress.spans);
    var d: seq<nat> := [39 * |s.enemies|];
    var e: seq<nat> := if s.coverage == COMPLETE then [] else DefinitionSizes(s.definitions);
    SumJoin(a, b);
    SumJoin(a + b, c);
    SumJoin(a + b + c, d);
    SumJoin(a + b + c + d, e);
  }

  lemma EncodedLength(s: Snapshot)
    ensures |Encode(s)| == |PutFront(s.room, s.hold, s.progress)| + |PutRows(s.hpSequence, s.enemies)| + 72
                           + |PutCatalog(s.definitions)| + |PutTrailer(s.activation, s.sitOut)|
  {
  }

  // The total rsSnapshotValid keeps is the encoded length: it is refused exactly when the encoding
  // would be too long, and otherwise it is that length.
  lemma RunningTotalIsSize(s: Snapshot)
    requires s.coverage == COMPLETE ==> s.definitions == []
    ensures Running(FIXED_BYTES, SizeTerms(s)) ==
            if |Encode(s)| <= MAX_SNAPSHOT_BYTES then Some(|Encode(s)|) else None
  {
    EncodedLength(s);
    HeadWidth();
    MiddleWidth();
    CountWidth();
    SpansAreTerms(s.progress.spans);
    RowsSize(s.enemies);
    CatalogSize(s.definitions);
    DefinitionsAreTerms(s.definitions);
    TrailerSize(s.activation, s.sitOut);
    TermsSum(s);
    RunningIsSum(FIXED_BYTES, SizeTerms(s));
  }

  // ---------------------------------------------------------------- round trips

  lemma {:induction false} BytesAdded(m: map<nat, byte>, offset: nat, bytes: seq<byte>)
    requires AddBytes(m, offset, bytes).Some?
    ensures |AddBytes(m, offset, bytes).value| == |m| + |bytes|
    decreases |bytes|
  {
    if bytes != [] {
      var n := m[offset := bytes[0]];
      assert n.Keys == m.Keys + {offset};
      assert |n| == |m| + 1;
      BytesAdded(n, offset + 1, bytes[1..]);
    }
  }

  // Every span is inside the allow list, so neither their number nor a length can pass its size.
  lemma {:induction false} SpansBounded(m: map<nat, byte>, spans: seq<Span>)
    requires AddSpans(m, spans).Some?
    ensures |m| + |spans| <= |AddSpans(m, spans).value|
    ensures forall i :: 0 <= i < |spans| ==> |m| + |spans[i].bytes| <= |AddSpans(m, spans).value|
    decreases |spans|
  {
    if spans != [] {
      BytesAdded(m, spans[0].offset, spans[0].bytes);
      var n := AddBytes(m, spans[0].offset, spans[0].bytes).value;
      SpansBounded(n, spans[1..]);
      forall i | 0 <= i < |spans| ensures |m| + |spans[i].bytes| <= |AddSpans(m, spans).value| {
        if i > 0 {
          assert spans[i] == spans[1..][i - 1];
        }
      }
    }
  }

  lemma ProgressIsSmall(p: Progress)
    requires ProgressValid(p)
    ensures ProgressFits(p)
  {
    SpansBounded(map[], p.spans);
  }

  lemma CatalogOfValid(s: Snapshot)
    requires |s.definitions| <= MAX_DEFINITIONS && ContentValid(s)
    ensures CatalogFits(s.definitions)
  {
  }

  // The writer's own check that its output fits never fails after the running total passed.
  lemma WrittenFits(s: Snapshot)
    requires Valid(s)
    ensures Running(FIXED_BYTES, SizeTerms(s)) == Some(|Encode(s)|) && |Encode(s)| <= MAX_SNAPSHOT_BYTES
  {
    RunningTotalIsSize(s);
  }

  // A snapshot that can be written reads back as itself, whichever trailer it carries.
  lemma ReadWritten(fingerprint: Snapshot -> Digest, s: Snapshot)
    requires Writable(fingerprint, s)
    ensures Decode(fingerprint, Encode(s)) == Some(s)
  {
    ProgressIsSmall(s.progress);
    CatalogOfValid(s);
    GetPutParts(s);
    assert Assemble(PartsOf(s)) == s;
  }

  // Accepted bytes are the ones writing the result would produce: the encoding is canonical.
  lemma WrittenRead(fingerprint: Snapshot -> Digest, b: seq<byte>)
    requires Decode(fingerprint, b).Some?
    ensures Writable(fingerprint, Decode(fingerprint, b).value) && Encode(Decode(fingerprint, b).value) == b
  {
    PutGetParts(b);
  }
}
