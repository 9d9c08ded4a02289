// Where each field of the wire forms stands: integers least significant byte first, fields one after
// another in the order the source writes them.
module WireLayout {
  import opened Common
  import opened Bytes
  import opened Snapshot
  import opened SnapshotCodec
  import opened SteamBroker
  import SteamFrame

  // v shifted down by i bytes.
  function Shifted(v: nat, i: nat): nat {
    if i == 0 then v else Shifted(v / 256, i - 1)
  }

  // Byte i of a written integer is its i-th digit in base 256, the lowest first.
  lemma {:induction false} ByteOfPut(v: nat, n: nat, i: nat)
    requires i < n
    ensures Put(v, n)[i] == Shifted(v, i) % 256
    decreases i
  {
    if i > 0 {
      ByteOfPut(v / 256, n - 1, i - 1);
    }
  }

  // ---------------------------------------------------------------- frames

  const OPS: seq<Op> := [Hello, Host, Join, Send, Close, Stop, Ready, Connected, Disconnected, Data, Error, Ping, Stats]

  // A frame on the pipe: "SBP1" as a number, version 1, the op's place among the ops, channel and
  // reliability; then sequence, peer, reason and size; then the payload.
  lemma FrameLayout(f: Frame, sequence: nat)
    requires SteamFrame.Encodable(f, sequence) && SteamFrame.Words(f, sequence)
    ensures var code := SteamFrame.OpCode(f.op);
            && 1 <= code <= 13 && OPS[code - 1] == f.op
            && GetAll([4, 1, 1, 1, 1, 8, 8, 4, 4], SteamFrame.Encode(f, sequence)) ==
               Some(([0x31504253, 1, code, f.channel, if f.reliable then 1 else 0, sequence, f.peer, f.reason, |f.bytes|], f.bytes))
  {
    SteamFrame.HeaderFits(f, sequence);
    GetAllPutAll(SteamFrame.HEADER, SteamFrame.HeaderOf(f, sequence), f.bytes);
  }

  // ---------------------------------------------------------------- the snapshot

  // Room, hold, progress version and the number of spans; then the spans.
  lemma FrontLayout(r: Room, h: Hold, p: Progress, rest: seq<byte>)
    requires ProgressFits(p)
    ensures GetAll([4, 2, 2, 2, 2, 2, 2, 4, 1, 2, 4, 1, 2], PutFront(r, h, p) + rest) ==
            Some(([r.epoch, r.location.world, r.location.room, r.location.door, r.location.mapProgram, r.location.battleProgram,
                   r.location.eventProgram, h.epoch, if h.active then 1 else 0, h.eventProgram, p.version, 1, |p.spans|],
                  PutList(PutSpan, p.spans) + rest))
  {
    HeadFieldsFit(r, h, p);
    Associate(PutAll(HEAD, HeadFields(r, h, p)), PutList(PutSpan, p.spans), rest);
    GetAllPutAll(HEAD, HeadFields(r, h, p), PutList(PutSpan, p.spans) + rest);
  }

  // The HP sequence and the number of enemy rows; then the rows.
  lemma RowsLayout(hp: u64, es: seq<Enemy>, rest: seq<byte>)
    requires |es| < U16_RANGE
    ensures GetAll([8, 2], PutRows(hp, es) + rest) == Some(([hp, |es|], PutList(PutEnemy, es) + rest))
  {
    Powers();
    Associate(PutAll(MIDDLE, [hp, |es|]), PutList(PutEnemy, es), rest);
    GetAllPutAll(MIDDLE, [hp, |es|], PutList(PutEnemy, es) + rest);
  }

  lemma TwosComplement(x: i32)
    ensures Word(x) == x % U32_RANGE
  {
  }

  // An enemy row; signed numbers are in two's complement.
  lemma EnemyLayout(e: Enemy, rest: seq<byte>)
    ensures GetAll([2, 2, 2, 4, 4, 4, 4, 4, 4, 4, 1, 2, 2], PutEnemy(e) + rest) == Some((EnemyRow(e), rest))
  {
    GetAllPutAll(ENEMY, EnemyFields(e), rest);
    TwosComplement(e.hp);
    TwosComplement(e.maxHp);
  }

  function EnemyRow(e: Enemy): seq<nat> {
    [e.netId, e.battleProgram, e.spawnIndex, e.objectId, e.x, e.y, e.z, e.objectType, e.hp % U32_RANGE, e.maxHp % U32_RANGE,
     e.life, e.definition, e.record]
  }

  // Census, coverage, serials and frames; then the fingerprint.
  lemma FooterLayout(f: Footer, rest: seq<byte>)
    ensures GetAll([4, 4, 4, 4, 4, 4, 8, 8], PutFooter(f) + rest) ==
            Some(([f.living, f.dead, f.coverage, f.generation, f.transition, f.load, f.frameBefore, f.frameAfter],
                  f.fingerprint + rest))
  {
    FooterFieldsFit(f);
    Associate(PutAll(TAIL, FooterFields(f)), f.fingerprint, rest);
    GetAllPutAll(TAIL, FooterFields(f), f.fingerprint + rest);
  }

  // A record definition: layout digest, location and group; then header and records.
  lemma DefinitionLayout(d: Definition)
    ensures PutDefinition(d)[..32] == d.layout
    ensures GetAll([2, 2, 2, 2, 2, 2, 4], PutDefinition(d)[32..]) ==
            Some(([d.location.world, d.location.room, d.location.door, d.location.mapProgram, d.location.battleProgram,
                   d.location.eventProgram, d.groupKey], d.header + PutRecords(d.records)))
  {
    var vs := PlaceFields(d.location, d.groupKey);
    assert PutDefinition(d)[32..] == PutAll(PLACE, vs) + (d.header + PutRecords(d.records));
    GetAllPutAll(PLACE, vs, d.header + PutRecords(d.records));
  }
}
