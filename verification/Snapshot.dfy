// The resync snapshot and what makes one valid (common/include/kh2coop/ResyncProtocol.hpp and
// rsSnapshotValid of common/src/Codec.cpp). Floats are their raw 32-bit words.
module Snapshot {
  import opened Common
  import Words

  const MAX_SNAPSHOT_BYTES: nat := 60000
  const MAX_ENEMIES: nat := 1024
  const MAX_DEFINITIONS: nat := 64
  const MAX_RECORDS: nat := 256
  const MAX_TOTAL_RECORDS: nat := 1024
  const COMPLETE: u32 := 127
  const NATIVE_COMPLETE: u32 := 255
  const NO_INDEX: u16 := 0xffff

  type Digest = b: seq<byte> | |b| == 32 witness seq(32, _ => 0)
  type Header = b: seq<byte> | |b| == 44 witness seq(44, _ => 0)
  type Record = b: seq<byte> | |b| == 64 witness seq(64, _ => 0)
  type CacheIds = b: seq<u16> | |b| == 256 witness seq(256, _ => 0)

  datatype Location = Location(world: u16, room: u16, door: u16, mapProgram: u16, battleProgram: u16, eventProgram: u16)
  datatype Room = Room(epoch: u32, location: Location)
  datatype Hold = Hold(epoch: u32, active: bool, eventProgram: u16)
  datatype Span = Span(offset: u32, bytes: seq<byte>)
  datatype Progress = Progress(version: u32, full: bool, spans: seq<Span>)
  datatype Enemy = Enemy(
    netId: u16, battleProgram: u16, spawnIndex: u16, objectId: u32, x: u32, y: u32, z: u32,
    objectType: u32, hp: i32, maxHp: i32, life: byte, definition: u16, record: u16)
  datatype Definition = Definition(layout: Digest, location: Location, groupKey: u32, header: Header, records: seq<Record>)
  datatype ActivationState = ActivationState(
    flags: u32, currentCount: u32, initialCount: u32, cooldown: u32, stage: byte, activation: byte, nativeType: byte,
    headerId: u16, recordCount: u16, cacheRoom: i32, cacheAge: i32, cacheIds: CacheIds)
  datatype Activation = Activation(
    definition: u16, x: u32, y: u32, z: u32, w: u32, before: ActivationState, current: ActivationState,
    firstUpdate: u64, hostTransition: u32, hostLoad: u32)
  datatype SitOut = SitOut(arena: u16, bossNetId: u16, bossObjectId: u32)

  datatype Snapshot = Snapshot(
    room: Room, hold: Hold, progress: Progress, hpSequence: u64, enemies: seq<Enemy>,
    living: u32, dead: u32, coverage: u32, generation: u32, transition: u32, load: u32,
    frameBefore: u64, frameAfter: u64, fingerprint: Digest,
    definitions: seq<Definition>, activation: Option<Activation>, sitOut: Option<SitOut>)

  // A native little-endian 16-bit field.
  function U16At(b: seq<byte>, i: nat): u16 { ByteAt(b, i) + 256 * ByteAt(b, i + 1) }

  function U32At(b: seq<byte>, i: nat): u32 { U16At(b, i) + 0x1_0000 * U16At(b, i + 2) }

  // The exponent of an IEEE single is not all ones.
  predicate IsFinite(bits: u32) { bits / 0x80_0000 % 256 != 255 }

  // ---------------------------------------------------------------- progress

  // common/include/kh2coop/ProgressAllowList.hpp: which bits of a save byte are shared.
  function Mask(offset: nat): byte {
    if (0x0010 <= offset < 0x1ef0) || (0x22f8 <= offset < 0x2390) then 0xff
    else if offset == 0x23ac then 0xfe
    else if offset == 0x23df then 0x0f
    else if 0x23ac < offset < 0x23df then 0xff
    else 0
  }

  // The lengths of the allow list's ranges.
  const ALLOWED: nat := 0x1c80 + 0x260 + 0x98 + 0x34

  predicate Permitted(offset: nat, value: byte) {
    Mask(offset) != 0 && Words.And(value, 255 - Mask(offset)) == 0
  }

  // The offset-to-byte map of one span's bytes added to m, unless a byte is not permitted or its
  // offset is taken.
  function AddBytes(m: map<nat, byte>, offset: nat, bytes: seq<byte>): Option<map<nat, byte>>
    decreases |bytes|
  {
    if bytes == [] then Some(m)
    else if offset in m || !Permitted(offset, bytes[0]) then None
    else AddBytes(m[offset := bytes[0]], offset + 1, bytes[1..])
  }

  function AddSpans(m: map<nat, byte>, spans: seq<Span>): Option<map<nat, byte>>
    decreases |spans|
  {
    if spans == [] then Some(m)
    else if spans[0].bytes == [] || spans[0].offset + |spans[0].bytes| > 0xffff_ffff then None
    else match AddBytes(m, spans[0].offset, spans[0].bytes)
      case None => None
      case Some(n) => AddSpans(n, spans[1..])
  }

  predicate ProgressValid(p: Progress) {
    p.full && AddSpans(map[], p.spans).Some? && |AddSpans(map[], p.spans).value| == ALLOWED
  }

  // ---------------------------------------------------------------- enemies

  // common/include/kh2coop/EnemyClass.hpp
  predicate Combat(objectType: u32, objectId: u32) {
    objectType == 4 || objectType == 3 || (objectType == 12 && objectId == 307)
  }

  predicate EnemyValid(e: Enemy) {
    && e.netId != 0 && e.objectId != 0 && Combat(e.objectType, e.objectId)
    && IsFinite(e.x) && IsFinite(e.y) && IsFinite(e.z) && e.maxHp > 0
    && ((e.life == 0 && 0 < e.hp <= e.maxHp) || (e.life == 1 && e.hp <= 0))
  }

  // Rows after the network id `last`, in strictly ascending order.
  predicate RowsValid(es: seq<Enemy>, last: nat, battleProgram: u16)
    decreases |es|
  {
    es != [] ==>
    EnemyValid(es[0]) && es[0].netId > last && es[0].battleProgram == battleProgram
    && RowsValid(es[1..], es[0].netId, battleProgram)
  }

  function Living(es: seq<Enemy>): nat {
    if es == [] then 0 else (if es[0].life == 0 then 1 else 0) + Living(es[1..])
  }

  // ---------------------------------------------------------------- record definitions

  // native_record_detail::validate: a complete definition. Its header's count is its record count.
  predicate Whole(d: Definition) {
    |d.records| <= MAX_RECORDS && |d.records| == U16At(d.header, 4) && exists i :: 0 <= i < 32 && d.layout[i] != 0
  }

  // native_record_detail::descriptorEqual
  predicate SameDescriptor(a: Definition, b: Definition) {
    && a.layout == b.layout && a.location == b.location && a.groupKey == b.groupKey
    && a.header[0] == b.header[0] && U16At(a.header, 2) == U16At(b.header, 2) && U16At(a.header, 4) == U16At(b.header, 4)
    && a.records == b.records
  }

  function RecordId(r: Record): u16 { U16At(r, 0x1e) }

  function IdsOf(records: seq<Record>): (ids: seq<u16>)
    ensures |ids| == |records| && forall i :: 0 <= i < |ids| ==> ids[i] == RecordId(records[i])
  {
    seq(|records|, i requires 0 <= i < |records| => RecordId(records[i]))
  }

  function AllIds(ds: seq<Definition>): seq<u16> {
    if ds == [] then [] else IdsOf(ds[0].records) + AllIds(ds[1..])
  }

  predicate Distinct<T(==)>(s: seq<T>) {
    forall i, j :: 0 <= i < j < |s| ==> s[i] != s[j]
  }

  function RecordTotal(ds: seq<Definition>): nat {
    if ds == [] then 0 else |ds[0].records| + RecordTotal(ds[1..])
  }

  predicate DefinitionsValid(ds: seq<Definition>, location: Location) {
    && (forall i :: 0 <= i < |ds| ==>
          Whole(ds[i]) && ds[i].header[0] in {1, 2} && ds[i].location == location && ds[i].layout == ds[0].layout)
    && RecordTotal(ds) <= MAX_TOTAL_RECORDS
    && (forall i, j :: 0 <= j < i < |ds| ==> !SameDescriptor(ds[i], ds[j]))
    && Distinct(AllIds(ds))
  }

  predicate Refers(e: Enemy, ds: seq<Definition>) {
    && e.definition < |ds| && e.record < |ds[e.definition].records|
    && U32At(ds[e.definition].records[e.record], 0) == e.objectId
  }

  predicate ReferencesValid(es: seq<Enemy>, ds: seq<Definition>) {
    && (forall i :: 0 <= i < |es| ==> Refers(es[i], ds))
    && forall i, j :: 0 <= i < j < |es| ==> es[i].definition != es[j].definition || es[i].record != es[j].record
  }

  // What the two coverage levels ask of the record content.
  predicate ContentValid(s: Snapshot) {
    if s.coverage == COMPLETE then
      && s.definitions == []
      && forall i :: 0 <= i < |s.enemies| ==> s.enemies[i].definition == NO_INDEX && s.enemies[i].record == NO_INDEX
    else DefinitionsValid(s.definitions, s.room.location) && ReferencesValid(s.enemies, s.definitions)
  }

  // ---------------------------------------------------------------- the two trailers

  const ACTIVATION_IDS: seq<u16> := [11, 12, 13, 14, 18]

  predicate CacheValid(ids: seq<u16>) {
    && (forall i :: 0 <= i < |ids| ==> ids[i] == 0 || ids[i] in ACTIVATION_IDS)
    && forall i, j :: 0 <= i < j < |ids| && ids[i] == ids[j] ==> ids[i] == 0
  }

  predicate ActivationStateValid(a: ActivationState, room: u16) {
    && IsFinite(a.cooldown) && a.nativeType == 2 && a.headerId == 30 && a.recordCount == 5 && a.initialCount == 5
    && a.currentCount <= 5 && a.activation <= 1 && a.cacheRoom == room && CacheValid(a.cacheIds)
  }

  predicate ActivationRecord(r: Record, id: u16) {
    && r[0] == 0x2e && r[1] == 1 && r[2] == 0 && r[3] == 0 && r[0x1c] == 2 && r[0x1d] == 0
    && U16At(r, 0x1e) == id && U16At(r, 0x2a) == 8 && r[0x30] == 0
  }

  predicate ActivationRow(e: Enemy, definition: u16) {
    e.definition == definition && e.record < 5 && e.objectId == 302 && e.objectType == 4 && e.life == 0
  }

  predicate ActivationValid(s: Snapshot) {
    s.activation.Some? ==>
    var a := s.activation.value;
    && s.coverage == NATIVE_COMPLETE && |s.enemies| == 5 && s.living == 5 && s.dead == 0 && !s.hold.active
    && a.definition < |s.definitions| && a.firstUpdate != 0
    && a.hostTransition != 0 && a.hostTransition == s.transition && a.hostLoad != 0 && a.hostLoad == s.load
    && IsFinite(a.x) && IsFinite(a.y) && IsFinite(a.z) && IsFinite(a.w)
    && var d := s.definitions[a.definition];
    && d.groupKey == 808476514 && d.header[0] == 2 && U16At(d.header, 2) == 30
    && |d.records| == 5 && U16At(d.header, 4) == 5
    && (forall i :: 0 <= i < 5 ==> ActivationRecord(d.records[i], ACTIVATION_IDS[i]))
    && (forall i :: 0 <= i < 5 ==> ActivationRow(s.enemies[i], a.definition))
    && (forall i, j :: 0 <= i < j < 5 ==> s.enemies[i].record != s.enemies[j].record)
    && ActivationStateValid(a.before, s.room.location.room) && ActivationStateValid(a.current, s.room.location.room)
    && (forall i :: 0 <= i < 5 ==> ACTIVATION_IDS[i] in a.current.cacheIds)
    && a.before.flags == 2 && a.before.currentCount == 5 && IsZero(a.before.cooldown) && a.before.stage == 0
    && a.before.activation == 0 && (forall i :: 0 <= i < 256 ==> a.before.cacheIds[i] == 0)
    && a.current.activation == d.header[0xe]
  }

  // +0.0 or -0.0
  predicate IsZero(bits: u32) { bits == 0 || bits == 0x8000_0000 }

  // common/include/kh2coop/BossArenas.hpp: the one reviewed arena.
  const ARENA: Location := Location(2, 34, 0, 157, 157, 157)
  const ARENA_ID: u16 := 1
  const ARENA_BOSS: u32 := 307

  predicate SitOutValid(s: Snapshot) {
    s.sitOut.Some? ==>
    var b := s.sitOut.value;
    && b.arena == ARENA_ID && s.room.location == ARENA && b.bossNetId != 0 && b.bossObjectId == ARENA_BOSS
    && s.activation.None? && s.coverage == NATIVE_COMPLETE && s.enemies == [] && s.living == 0 && s.dead == 0
    && !s.hold.active && s.definitions == []
  }

  // ---------------------------------------------------------------- the encoded size

  // rsSnapshotBytes: a running total that must never pass the limit.
  function Running(total: nat, sizes: seq<nat>): Option<nat>
    decreases |sizes|
  {
    if sizes == [] then Some(total)
    else if total <= MAX_SNAPSHOT_BYTES && sizes[0] <= MAX_SNAPSHOT_BYTES - total then Running(total + sizes[0], sizes[1..])
    else None
  }

  const FIXED_BYTES: nat := 114
  const ACTIVATION_BYTES: nat := 1128
  const SIT_OUT_BYTES: nat := 16

  function SpanSizes(spans: seq<Span>): seq<nat> {
    if spans == [] then [] else [6 + |spans[0].bytes|] + SpanSizes(spans[1..])
  }

  function DefinitionSizes(ds: seq<Definition>): seq<nat> {
    if ds == [] then [] else [92 + 64 * |ds[0].records|] + DefinitionSizes(ds[1..])
  }

  // The terms in the order they are added. Coverage 127 stops before the definitions, of which it
  // has none.
  function SizeTerms(s: Snapshot): seq<nat> {
    (if s.activation.Some? then [ACTIVATION_BYTES] else [])
    + (if s.sitOut.Some? then [SIT_OUT_BYTES] else [])
    + SpanSizes(s.progress.spans)
    + [39 * |s.enemies|]
    + (if s.coverage == COMPLETE then [] else DefinitionSizes(s.definitions))
  }

  // ---------------------------------------------------------------- the whole

  predicate HeadValid(s: Snapshot) {
    && s.room.epoch != 0 && s.hold.epoch == s.room.epoch && s.hold.eventProgram == s.room.location.eventProgram
    && s.progress.version != 0 && s.coverage in {COMPLETE, NATIVE_COMPLETE} && s.hpSequence != 0 && s.generation != 0
    && s.load != 0 && s.frameBefore != 0 && s.frameAfter >= s.frameBefore
  }

  predicate CensusValid(s: Snapshot) {
    && |s.enemies| <= MAX_ENEMIES && RowsValid(s.enemies, 0, s.room.location.battleProgram)
    && s.living == Living(s.enemies) && s.dead == |s.enemies| - Living(s.enemies)
  }

  predicate Valid(s: Snapshot) {
    && HeadValid(s) && ProgressValid(s.progress) && CensusValid(s) && ActivationValid(s) && SitOutValid(s)
    && Running(FIXED_BYTES, SizeTerms(s)).Some?
    && |s.definitions| <= MAX_DEFINITIONS
    && ContentValid(s)
  }
}
