// Carrying a snapshot in parts: the sender's loop (common/src/NetworkClient.cpp) and the
// reassembler that tolerates repeats (ResyncAssembler of common/src/Codec.cpp).
module Transfer {
  import opened Common
  import opened Snapshot
  import opened SnapshotCodec

  const PART_BYTES: nat := 16384

  datatype Phase = Bootstrap | Checkpoint
  datatype Key = Key(session: string, host: u64, request: u64)
  datatype Target = Target(slot: byte, connection: u64, delivery: u64)
  datatype Begin = Begin(key: Key, phase: Phase, room: Room, targets: seq<Target>, cut: u64, total: u32, count: u16, sha: Digest)
  datatype Part = Part(key: Key, phase: Phase, cut: u64, offset: u32, bytes: seq<byte>)
  datatype End = End(key: Key, phase: Phase, cut: u64, total: u32, sha: Digest)

  // What the receiver applies to the bytes it holds: the digest and the snapshot decoder.
  datatype Receiver = Receiver(sha: seq<byte> -> Digest, decode: seq<byte> -> Option<Snapshot>)

  function Ceiling(total: nat): nat { (total + PART_BYTES - 1) / PART_BYTES }

  function Least2(a: nat, b: nat): nat { if a <= b then a else b }

  predicate SessionValid(s: string) {
    |s| == 32 && forall i :: 0 <= i < 32 ==> '0' <= s[i] <= '9' || 'a' <= s[i] <= 'f'
  }

  predicate KeyValid(k: Key) { SessionValid(k.session) && k.host != 0 && k.request != 0 }

  predicate TargetsValid(ts: seq<Target>) {
    && 1 <= |ts| <= 2
    && (forall i :: 0 <= i < |ts| ==> 1 <= ts[i].slot <= 2 && ts[i].connection != 0 && ts[i].delivery != 0)
    && (|ts| == 2 ==> ts[1].slot > ts[0].slot && ts[1].connection != ts[0].connection)
  }

  predicate BeginValid(b: Begin) {
    && KeyValid(b.key) && b.room.epoch != 0 && TargetsValid(b.targets)
    && b.cut != 0 && 0 < b.total <= MAX_SNAPSHOT_BYTES && b.count == Ceiling(b.total)
  }

  predicate PartValid(p: Part) {
    && KeyValid(p.key) && p.cut != 0 && 0 < |p.bytes| <= PART_BYTES && p.offset <= MAX_SNAPSHOT_BYTES - |p.bytes|
  }

  // ---------------------------------------------------------------- the assembler

  datatype Assembler = Assembler(begin: Option<Begin>, bytes: seq<byte>, parts: nat)

  const EMPTY := Assembler(None, [], 0)

  // A valid header opens an idle assembler; an open one accepts only its own header again.
  function TakeBegin(a: Assembler, b: Begin): (Assembler, bool) {
    if !BeginValid(b) then (EMPTY, false)
    else if a.begin.Some? then (a, a.begin.value == b)
    else (Assembler(Some(b), [], 0), true)
  }

  // The part belongs to the open transfer and is one of its aligned pieces.
  predicate Fits(b: Begin, p: Part) {
    && PartValid(p) && p.key == b.key && p.phase == b.phase && p.cut == b.cut && p.offset + |p.bytes| <= b.total
    && p.offset % PART_BYTES == 0 && |p.bytes| == Least2(PART_BYTES, b.total - p.offset)
  }

  predicate Repeats(a: Assembler, p: Part) {
    p.offset < |a.bytes| && p.offset + |p.bytes| <= |a.bytes| && a.bytes[p.offset..p.offset + |p.bytes|] == p.bytes
  }

  function TakePart(a: Assembler, p: Part): (Assembler, bool) {
    if a.begin.None? || !Fits(a.begin.value, p) then (EMPTY, false)
    else if p.offset < |a.bytes| then (if Repeats(a, p) then (a, true) else (EMPTY, false))
    else if p.offset == |a.bytes| && a.parts < a.begin.value.count then
      (a.(bytes := a.bytes + p.bytes, parts := a.parts + 1), true)
    else (EMPTY, false)
  }

  predicate Complete(d: Receiver, a: Assembler, e: End) {
    && a.begin.Some? && e.key == a.begin.value.key && e.phase == a.begin.value.phase && e.cut == a.begin.value.cut
    && e.total == a.begin.value.total && e.sha == a.begin.value.sha
    && a.parts == a.begin.value.count && |a.bytes| == e.total && d.sha(a.bytes) == e.sha
  }

  // The snapshot, if the transfer is complete and names its room; the assembler is reset either way.
  function TakeEnd(d: Receiver, a: Assembler, e: End): Option<Snapshot> {
    if !Complete(d, a, e) then None
    else match d.decode(a.bytes)
      case None => None
      case Some(s) => if s.room == a.begin.value.room then Some(s) else None
  }

  datatype Input = InBegin(begin: Begin) | InPart(part: Part) | InEnd(end: End)

  function Take(d: Receiver, a: Assembler, i: Input): (Assembler, Option<Snapshot>) {
    match i
    case InBegin(b) => (TakeBegin(a, b).0, None)
    case InPart(p) => (TakePart(a, p).0, None)
    case InEnd(e) => (EMPTY, TakeEnd(d, a, e))
  }

  function TakeAll(d: Receiver, a: Assembler, inputs: seq<Input>): Assembler
    decreases |inputs|
  {
    if inputs == [] then a else TakeAll(d, Take(d, a, inputs[0]).0, inputs[1..])
  }

  // ---------------------------------------------------------------- every run

  // What is held is whole aligned parts, short only in the last one.
  predicate Held(a: Assembler) {
    match a.begin
    case None => a == EMPTY
    case Some(b) => BeginValid(b) && a.parts <= b.count && |a.bytes| == Least2(PART_BYTES * a.parts, b.total)
  }

  lemma TakeHeld(d: Receiver, a: Assembler, i: Input)
    requires Held(a)
    ensures Held(Take(d, a, i).0)
  {
  }

  lemma {:induction false} RunHeld(d: Receiver, a: Assembler, inputs: seq<Input>)
    requires Held(a)
    ensures Held(TakeAll(d, a, inputs))
    decreases |inputs|
  {
    if inputs != [] {
      TakeHeld(d, a, inputs[0]);
      RunHeld(d, Take(d, a, inputs[0]).0, inputs[1..]);
    }
  }

  // A refused part or header-less input leaves nothing: no snapshot comes out until a new header.
  predicate HasNoBegin(inputs: seq<Input>) {
    forall i :: 0 <= i < |inputs| ==> !inputs[i].InBegin?
  }

  lemma {:induction false} NothingWithoutBegin(d: Receiver, inputs: seq<Input>, e: End)
    requires HasNoBegin(inputs)
    ensures TakeAll(d, EMPTY, inputs) == EMPTY && TakeEnd(d, TakeAll(d, EMPTY, inputs), e).None?
    decreases |inputs|
  {
    if inputs != [] {
      assert Take(d, EMPTY, inputs[0]).0 == EMPTY;
      NothingWithoutBegin(d, inputs[1..], e);
    }
  }

  // A conflicting, foreign, gapped or misaligned part loses the transfer for good.
  lemma RefusedPartEndsTransfer(d: Receiver, a: Assembler, p: Part, inputs: seq<Input>, e: End)
    requires !TakePart(a, p).1 && HasNoBegin(inputs)
    ensures TakePart(a, p).0 == EMPTY && TakeEnd(d, TakeAll(d, TakePart(a, p).0, inputs), e).None?
  {
  }

  // Exactly when a part is taken.
  lemma PartTakenIff(a: Assembler, p: Part)
    requires Held(a)
    ensures TakePart(a, p).1 <==>
            a.begin.Some? && Fits(a.begin.value, p) && p.offset <= |a.bytes| && (p.offset < |a.bytes| ==> Repeats(a, p))
  {
  }

  // Bytes once held are never altered while the transfer stays open.
  lemma HeldBytesStay(a: Assembler, p: Part)
    requires TakePart(a, p).1
    ensures TakePart(a, p).0.begin == a.begin && a.bytes <= TakePart(a, p).0.bytes
  {
  }

  // Whatever the inputs, what comes out is the decoding of bytes with the announced digest.
  lemma OnlyAnnouncedBytes(d: Receiver, a: Assembler, e: End)
    requires Held(a) && TakeEnd(d, a, e).Some?
    ensures d.sha(a.bytes) == a.begin.value.sha && |a.bytes| == a.begin.value.total
    ensures d.decode(a.bytes) == TakeEnd(d, a, e) && TakeEnd(d, a, e).value.room == a.begin.value.room
  {
  }

  // ---------------------------------------------------------------- the sender

  function Piece(b: Begin, data: seq<byte>, offset: nat): Part
    requires offset < |data| <= MAX_SNAPSHOT_BYTES
  {
    Part(b.key, b.phase, b.cut, offset, data[offset..Least2(|data|, offset + PART_BYTES)])
  }

  function Pieces(b: Begin, data: seq<byte>, offset: nat): seq<Part>
    requires |data| <= MAX_SNAPSHOT_BYTES
    decreases |data| - offset
  {
    if offset >= |data| then [] else [Piece(b, data, offset)] + Pieces(b, data, offset + PART_BYTES)
  }

  // The submission loop; the transport takes `room` more packets and then refuses.
  method SendParts(b: Begin, data: seq<byte>, room: nat) returns (sent: seq<Part>, ok: bool)
    requires |data| <= MAX_SNAPSHOT_BYTES
    ensures sent == Pieces(b, data, 0)[..Least2(room, |Pieces(b, data, 0)|)]
    ensures ok <==> |Pieces(b, data, 0)| <= room
  {
    sent := [];
    var offset := 0;
    while offset < |data|
      invariant |sent| <= room && sent + Pieces(b, data, offset) == Pieces(b, data, 0)
      decreases |data| - offset
    {
      ghost var rest := Pieces(b, data, offset + PART_BYTES);
      assert Pieces(b, data, offset) == [Piece(b, data, offset)] + rest;
      if |sent| == room {
        return sent, false;
      }
      assert sent + ([Piece(b, data, offset)] + rest) == (sent + [Piece(b, data, offset)]) + rest;
      sent := sent + [Piece(b, data, offset)];
      offset := offset + PART_BYTES;
    }
    return sent, true;
  }

  // The header announces this data.
  predicate Announces(d: Receiver, b: Begin, data: seq<byte>) {
    BeginValid(b) && b.total == |data| && b.sha == d.sha(data)
  }

  // ---------------------------------------------------------------- in order, with repeats

  // One delivery to the receiver: the header again, or the piece with this index.
  datatype Delivery = Again | Index(i: nat)

  // How many pieces of n have been delivered, from `next` on, if each delivery repeats an earlier
  // one or is the next piece.
  function Reached(ds: seq<Delivery>, next: nat, n: nat): Option<nat>
    decreases |ds|
  {
    if ds == [] then Some(next)
    else match ds[0]
      case Again => Reached(ds[1..], next, n)
      case Index(i) => if i <= next && i < n then Reached(ds[1..], if i == next then next + 1 else next, n) else None
  }

  // In order, with repeats, and complete.
  predicate InOrder(ds: seq<Delivery>, next: nat, n: nat) { Reached(ds, next, n) == Some(n) }

  function Deliver(b: Begin, data: seq<byte>, x: Delivery): Input
    requires |data| <= MAX_SNAPSHOT_BYTES
  {
    match x
    case Again => InBegin(b)
    case Index(i) => if PART_BYTES * i < |data| then InPart(Piece(b, data, PART_BYTES * i)) else InBegin(b)
  }

  function DeliverAll(b: Begin, data: seq<byte>, ds: seq<Delivery>): seq<Input>
    requires |data| <= MAX_SNAPSHOT_BYTES
  {
    if ds == [] then [] else [Deliver(b, data, ds[0])] + DeliverAll(b, data, ds[1..])
  }

  // The first `next` pieces of the data.
  function Upto(b: Begin, data: seq<byte>, next: nat): Assembler {
    Assembler(Some(b), data[..Least2(PART_BYTES * next, |data|)], next)
  }

  lemma PieceFits(d: Receiver, b: Begin, data: seq<byte>, i: nat)
    requires Announces(d, b, data) && i < b.count
    ensures PART_BYTES * i < |data| && Fits(b, Piece(b, data, PART_BYTES * i))
  {
  }

  lemma InPrefix(data: seq<byte>, k: nat, from: nat, to: nat)
    requires from <= to <= k <= |data|
    ensures data[..k][from..to] == data[from..to]
  {
  }

  lemma TakePiece(d: Receiver, b: Begin, data: seq<byte>, next: nat, i: nat)
    requires Announces(d, b, data) && i <= next && i < b.count
    ensures PART_BYTES * i < |data|
    ensures TakePart(Upto(b, data, next), Piece(b, data, PART_BYTES * i))
            == (Upto(b, data, if i == next then next + 1 else next), true)
  {
    PieceFits(d, b, data, i);
    var a := Upto(b, data, next);
    var p := Piece(b, data, PART_BYTES * i);
    var end := Least2(|data|, PART_BYTES * i + PART_BYTES);
    if i < next {
      assert PART_BYTES * (i + 1) <= PART_BYTES * next;
      InPrefix(data, Least2(PART_BYTES * next, |data|), PART_BYTES * i, end);
      assert Repeats(a, p);
    } else {
      assert data[..PART_BYTES * i] + data[PART_BYTES * i..end] == data[..end];
    }
  }

  lemma {:induction false} DeliveredSoFar(d: Receiver, b: Begin, data: seq<byte>, ds: seq<Delivery>, next: nat)
    requires Announces(d, b, data) && next <= b.count && Reached(ds, next, b.count).Some?
    ensures TakeAll(d, Upto(b, data, next), DeliverAll(b, data, ds)) == Upto(b, data, Reached(ds, next, b.count).value)
    decreases |ds|
  {
    if ds != [] {
      var rest := DeliverAll(b, data, ds[1..]);
      assert DeliverAll(b, data, ds)[1..] == rest;
      match ds[0]
      case Again => DeliveredSoFar(d, b, data, ds[1..], next);
      case Index(i) =>
        TakePiece(d, b, data, next, i);
        DeliveredSoFar(d, b, data, ds[1..], if i == next then next + 1 else next);
    }
  }

  lemma {:induction false} ReachedBefore(ds: seq<Delivery>, next: nat, n: nat, k: nat)
    requires Reached(ds, next, n).Some? && k <= |ds|
    ensures Reached(ds[..k], next, n).Some?
    decreases k
  {
    if k > 0 {
      assert ds[..k][1..] == ds[1..][..k - 1];
      match ds[0]
      case Again => ReachedBefore(ds[1..], next, n, k - 1);
      case Index(i) => ReachedBefore(ds[1..], if i == next then next + 1 else next, n, k - 1);
    }
  }

  // After each delivery the assembler holds a prefix of the data, and after the last all of it.
  lemma DeliveredInOrder(d: Receiver, b: Begin, data: seq<byte>, ds: seq<Delivery>, next: nat)
    requires Announces(d, b, data) && next <= b.count && InOrder(ds, next, b.count)
    ensures forall k :: 0 <= k <= |ds| ==> Prefixes(TakeAll(d, Upto(b, data, next), DeliverAll(b, data, ds[..k])), b, data)
    ensures TakeAll(d, Upto(b, data, next), DeliverAll(b, data, ds)) == Upto(b, data, b.count)
  {
    forall k | 0 <= k <= |ds|
      ensures Prefixes(TakeAll(d, Upto(b, data, next), DeliverAll(b, data, ds[..k])), b, data)
    {
      ReachedBefore(ds, next, b.count, k);
      DeliveredSoFar(d, b, data, ds[..k], next);
    }
    DeliveredSoFar(d, b, data, ds, next);
  }

  // The open transfer holds a prefix of the data.
  predicate Prefixes(a: Assembler, b: Begin, data: seq<byte>) { a.begin == Some(b) && a.bytes <= data }

  lemma UptoAll(d: Receiver, b: Begin, data: seq<byte>)
    requires Announces(d, b, data)
    ensures Upto(b, data, 0) == TakeBegin(EMPTY, b).0 && Upto(b, data, b.count) == Assembler(Some(b), data, b.count)
  {
  }

  // The header again and pieces already delivered change nothing: the whole comes out.
  lemma TransferDelivers(d: Receiver, b: Begin, s: Snapshot, data: seq<byte>, ds: seq<Delivery>)
    requires d.decode(data) == Some(s) && Announces(d, b, data) && b.room == s.room && InOrder(ds, 0, b.count)
    ensures var a := TakeAll(d, TakeBegin(EMPTY, b).0, DeliverAll(b, data, ds));
            a.bytes == data && TakeEnd(d, a, End(b.key, b.phase, b.cut, b.total, b.sha)) == Some(s)
  {
    DeliveredInOrder(d, b, data, ds, 0);
    UptoAll(d, b, data);
  }

  function SnapshotReceiver(sha: seq<byte> -> Digest, fingerprint: Snapshot -> Digest): Receiver {
    Receiver(sha, (b: seq<byte>) => Decode(fingerprint, b))
  }

  // Transfer round trip: a written snapshot cut by the sender's loop and delivered in order, with
  // any repeats, is exactly what comes out.
  lemma SnapshotDelivered(sha: seq<byte> -> Digest, fingerprint: Snapshot -> Digest, b: Begin, s: Snapshot, ds: seq<Delivery>)
    requires Writable(fingerprint, s) && Announces(SnapshotReceiver(sha, fingerprint), b, Encode(s))
    requires b.room == s.room && InOrder(ds, 0, b.count)
    ensures var d := SnapshotReceiver(sha, fingerprint);
            TakeEnd(d, TakeAll(d, TakeBegin(EMPTY, b).0, DeliverAll(b, Encode(s), ds)),
                    End(b.key, b.phase, b.cut, b.total, b.sha)) == Some(s)
  {
    ReadWritten(fingerprint, s);
    TransferDelivers(SnapshotReceiver(sha, fingerprint), b, s, Encode(s), ds);
  }

  // ---------------------------------------------------------------- the object

  class ResyncAssembler {
    var begin: Option<Begin>
    var bytes: seq<byte>
    var parts: nat

    function Abs(): Assembler
      reads this
    {
      Assembler(begin, bytes, parts)
    }

    constructor ()
      ensures Abs() == EMPTY
    {
      begin, bytes, parts := None, [], 0;
    }

    method Reset()
      modifies this
      ensures Abs() == EMPTY
    {
      begin, bytes, parts := None, [], 0;
    }

    method Open(b: Begin) returns (ok: bool)
      modifies this
      ensures (Abs(), ok) == TakeBegin(old(Abs()), b)
    {
      if !BeginValid(b) {
        Reset();
        return false;
      }
      if begin.Some? {
        return begin.value == b;
      }
      begin, bytes, parts := Some(b), [], 0;
      return true;
    }

    method Append(p: Part) returns (ok: bool)
      modifies this
      ensures (Abs(), ok) == TakePart(old(Abs()), p)
    {
      if begin.None? || !Fits(begin.value, p) {
        Reset();
        return false;
      }
      if p.offset < |bytes| {
        if p.offset + |p.bytes| > |bytes| || bytes[p.offset..p.offset + |p.bytes|] != p.bytes {
          Reset();
          return false;
        }
        return true;
      }
      if p.offset != |bytes| || parts >= begin.value.count {
        Reset();
        return false;
      }
      bytes, parts := bytes + p.bytes, parts + 1;
      return true;
    }

    method Close(d: Receiver, e: End) returns (s: Option<Snapshot>)
      modifies this
      ensures s == TakeEnd(d, old(Abs()), e) && Abs() == EMPTY
    {
      if !Complete(d, Abs(), e) {
        Reset();
        return None;
      }
      s := d.decode(bytes);
      if s.Some? && s.value.room != begin.value.room {
        s := None;
      }
      Reset();
    }
  }
}
