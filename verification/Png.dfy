// The PNG chunk walk of Codec.cpp: one pass over the bytes with five flags, against a grammar of
// chunk lists.
module Png {
  import opened Common
  import Crc

  const SIGNATURE: seq<byte> := [137, 80, 78, 71, 13, 10, 26, 10]
  const MAX_BYTES: nat := 16 * 1024 * 1024

  const IHDR: u32 := 0x4948_4452
  const PLTE: u32 := 0x504c_5445
  const IDAT: u32 := 0x4944_4154
  const IEND: u32 := 0x4945_4e44

  datatype Chunk = Chunk(kind: u32, data: seq<byte>)

  // ---------------------------------------------------------------- the bytes of a chunk list

  function Value(b: seq<byte>, p: nat): u32 {
    0x100_0000 * ByteAt(b, p) + 0x1_0000 * ByteAt(b, p + 1) + 0x100 * ByteAt(b, p + 2) + ByteAt(b, p + 3)
  }

  function BigEndian(v: u32): (b: seq<byte>)
    ensures |b| == 4
  {
    [v / 256 / 256 / 256, v / 256 / 256 % 256, v / 256 % 256, v % 256]
  }

  lemma BigEndianValue(b: seq<byte>)
    requires |b| == 4
    ensures BigEndian(Value(b, 0)) == b
  {
    var v := Value(b, 0);
    var x, y, z, w := ByteAt(b, 0), ByteAt(b, 1), ByteAt(b, 2), ByteAt(b, 3);
    assert v == 256 * (256 * (256 * x + y) + z) + w;
    assert v / 256 == 256 * (256 * x + y) + z && v % 256 == w;
    assert v / 256 / 256 == 256 * x + y && v / 256 % 256 == z;
    assert v / 256 / 256 / 256 == x && v / 256 / 256 % 256 == y;
  }

  predicate Sized(cs: seq<Chunk>) {
    forall i :: 0 <= i < |cs| ==> |cs[i].data| < U32_RANGE
  }

  function Raw(c: Chunk): (b: seq<byte>)
    requires |c.data| < U32_RANGE
    ensures |b| == 12 + |c.data|
  {
    BigEndian(|c.data|) + BigEndian(c.kind) + c.data + BigEndian(Crc.Checksum(BigEndian(c.kind) + c.data))
  }

  function Serialize(cs: seq<Chunk>): seq<byte>
    requires Sized(cs)
  {
    if cs == [] then [] else Raw(cs[0]) + Serialize(cs[1..])
  }

  // ---------------------------------------------------------------- the grammar

  predicate Upper(b: nat) { 65 <= b <= 90 }
  predicate Letter(b: nat) { Upper(b) || 97 <= b <= 122 }

  predicate Named(kind: u32) {
    && Letter(kind / 256 / 256 / 256) && Letter(kind / 256 / 256 % 256)
    && Upper(kind / 256 % 256) && Letter(kind % 256)
  }

  predicate Critical(kind: u32) { Upper(kind / 256 / 256 / 256) }

  predicate LegalDepth(color: nat, depth: nat) {
    || (color == 0 && depth in {1, 2, 4, 8, 16})
    || (color in {2, 4, 6} && depth in {8, 16})
    || (color == 3 && depth in {1, 2, 4, 8})
  }

  predicate LegalHeader(data: seq<byte>) {
    && |data| == 13
    && 0 < Value(data, 0) <= 16384 && 0 < Value(data, 4) <= 16384
    && LegalDepth(ByteAt(data, 9), ByteAt(data, 8))
    && data[10] == 0 && data[11] == 0 && data[12] <= 1
  }

  predicate LegalPalette(data: seq<byte>, color: nat) {
    0 < |data| <= 768 && |data| % 3 == 0 && color != 0 && color != 4
  }

  predicate Is(cs: seq<Chunk>, i: nat, kind: u32) { i < |cs| && cs[i].kind == kind }

  // The chunk at i carries image data.
  predicate Data(cs: seq<Chunk>, i: nat) { Is(cs, i, IDAT) && cs[i].data != [] }

  predicate Ancillary(cs: seq<Chunk>, i: nat) {
    i < |cs| && cs[i].kind !in {IHDR, PLTE, IDAT, IEND}
  }

  ghost predicate DataBefore(cs: seq<Chunk>, i: nat) { exists j: nat :: j < i && Data(cs, j) }
  ghost predicate PaletteBefore(cs: seq<Chunk>, i: nat) { exists j: nat :: j < i && Is(cs, j, PLTE) }

  // Some ancillary chunk before i follows image data.
  ghost predicate EndedBefore(cs: seq<Chunk>, i: nat) {
    exists j: nat :: j < i && Ancillary(cs, j) && DataBefore(cs, j)
  }

  function Color(cs: seq<Chunk>): nat { if cs == [] then 0 else ByteAt(cs[0].data, 9) }

  // The rule for the chunk at i, in terms of the chunks before it.
  ghost predicate Rule(cs: seq<Chunk>, i: nat)
    requires i < |cs|
  {
    && Named(cs[i].kind)
    && (i == 0 <==> cs[i].kind == IHDR)
    && (i == |cs| - 1 <==> cs[i].kind == IEND)
    && (cs[i].kind == IHDR ==> LegalHeader(cs[i].data))
    && (cs[i].kind == PLTE ==> !PaletteBefore(cs, i) && !DataBefore(cs, i) && LegalPalette(cs[i].data, Color(cs)))
    && (cs[i].kind == IDAT ==> !EndedBefore(cs, i) && (Color(cs) == 3 ==> PaletteBefore(cs, i)))
    && (cs[i].kind == IEND ==> cs[i].data == [] && DataBefore(cs, i))
    && (Ancillary(cs, i) ==> !Critical(cs[i].kind))
  }

  ghost predicate Legal(cs: seq<Chunk>) {
    cs != [] && Sized(cs) && forall i :: 0 <= i < |cs| ==> Rule(cs, i)
  }

  ghost predicate IsPng(bytes: seq<byte>) {
    |bytes| <= MAX_BYTES && exists cs :: Legal(cs) && bytes == SIGNATURE + Serialize(cs)
  }

  // ---------------------------------------------------------------- the flags

  datatype Flags = Flags(header: bool, idat: bool, idatEnded: bool, palette: bool, color: nat)

  const START := Flags(false, false, false, false, 0)

  // The branches taken on a chunk other than the end.
  function Next(f: Flags, c: Chunk): Option<Flags> {
    if c.kind == IHDR then
      if f.header || !LegalHeader(c.data) then None
      else Some(f.(header := true, color := ByteAt(c.data, 9)))
    else if c.kind == PLTE then
      if f.palette || f.idat || !LegalPalette(c.data, f.color) then None
      else Some(f.(palette := true))
    else if c.kind == IDAT then
      if f.idatEnded || (f.color == 3 && !f.palette) then None
      else Some(f.(idat := f.idat || c.data != []))
    else if Critical(c.kind) then None
    else Some(f.(idatEnded := f.idatEnded || f.idat))
  }

  // What the walk accepts from these flags on.
  predicate Accepts(f: Flags, cs: seq<Chunk>)
    decreases |cs|
  {
    && cs != []
    && Named(cs[0].kind)
    && (f.header || cs[0].kind == IHDR)
    && if cs[0].kind == IEND then cs[0].data == [] && f.idat && |cs| == 1
       else Next(f, cs[0]).Some? && Accepts(Next(f, cs[0]).value, cs[1..])
  }

  ghost function FlagsAt(cs: seq<Chunk>, i: nat): Flags
    requires i <= |cs|
  {
    Flags(i > 0, DataBefore(cs, i), EndedBefore(cs, i), PaletteBefore(cs, i), if i == 0 then 0 else Color(cs))
  }

  ghost predicate RulesFrom(cs: seq<Chunk>, i: nat) {
    forall k :: i <= k < |cs| ==> Rule(cs, k)
  }

  lemma DataBeforeNext(cs: seq<Chunk>, i: nat)
    ensures DataBefore(cs, i + 1) <==> DataBefore(cs, i) || Data(cs, i)
  {
  }

  lemma PaletteBeforeNext(cs: seq<Chunk>, i: nat)
    ensures PaletteBefore(cs, i + 1) <==> PaletteBefore(cs, i) || Is(cs, i, PLTE)
  {
  }

  lemma EndedBeforeNext(cs: seq<Chunk>, i: nat)
    ensures EndedBefore(cs, i + 1) <==> EndedBefore(cs, i) || (Ancillary(cs, i) && DataBefore(cs, i))
  {
  }

  // A legal chunk moves the flags to those of the longer prefix.
  lemma FlagsFollow(cs: seq<Chunk>, i: nat)
    requires i < |cs| - 1 && (i == 0 <==> cs[i].kind == IHDR) && cs[i].kind != IEND
    requires Next(FlagsAt(cs, i), cs[i]).Some?
    ensures Next(FlagsAt(cs, i), cs[i]).value == FlagsAt(cs, i + 1)
  {
    DataBeforeNext(cs, i);
    PaletteBeforeNext(cs, i);
    EndedBeforeNext(cs, i);
  }

  // The rule at i, apart from the names, is the code's test at i.
  lemma RuleIsTest(cs: seq<Chunk>, i: nat)
    requires i < |cs| - 1 && Named(cs[i].kind) && (i == 0 <==> cs[i].kind == IHDR) && cs[i].kind != IEND
    ensures Rule(cs, i) <==> Next(FlagsAt(cs, i), cs[i]).Some?
  {
  }

  lemma {:induction false} AcceptsFrom(cs: seq<Chunk>, i: nat)
    requires i < |cs|
    ensures Accepts(FlagsAt(cs, i), cs[i..]) <==> RulesFrom(cs, i)
    decreases |cs| - i
  {
    var rest := cs[i..];
    assert rest[0] == cs[i] && rest[1..] == cs[i + 1..];
    if !Named(cs[i].kind) || (i == 0 && cs[i].kind != IHDR) || (i > 0 && cs[i].kind == IHDR) {
      assert !Rule(cs, i);
    } else if cs[i].kind == IEND {
      assert Accepts(FlagsAt(cs, i), rest) ==> Rule(cs, i);
      assert Rule(cs, i) ==> i == |cs| - 1;
    } else if i == |cs| - 1 {
      assert !Rule(cs, i);
      assert rest[1..] == [];
    } else {
      RuleIsTest(cs, i);
      if Next(FlagsAt(cs, i), cs[i]).Some? {
        FlagsFollow(cs, i);
        AcceptsFrom(cs, i + 1);
      }
    }
  }

  // The one-pass flags accept exactly the legal chunk lists.
  lemma AcceptsLegal(cs: seq<Chunk>)
    requires Sized(cs)
    ensures Accepts(START, cs) <==> Legal(cs)
  {
    if cs != [] {
      AcceptsFrom(cs, 0);
      assert cs[0..] == cs && FlagsAt(cs, 0) == START;
    }
  }

  // ---------------------------------------------------------------- contiguous image data

  // The standard's rule: the IDAT chunks are consecutive (ISO/IEC 15948, section 5.6).
  ghost predicate Contiguous(cs: seq<Chunk>) {
    forall i: nat, j: nat, k: nat :: i < j < k && Is(cs, i, IDAT) && Is(cs, k, IDAT) ==> Is(cs, j, IDAT)
  }

  // No other chunk follows an empty IDAT before the first image data.
  ghost predicate NoEarlyGap(cs: seq<Chunk>) {
    forall i: nat, j: nat :: i < j < |cs| && Is(cs, i, IDAT) && !Is(cs, j, IDAT) ==> DataBefore(cs, j)
  }

  // The code keeps the standard's rule exactly for the files without such an early gap.
  lemma ContiguousIff(cs: seq<Chunk>)
    requires Legal(cs)
    ensures Contiguous(cs) <==> NoEarlyGap(cs)
  {
    var last := |cs| - 1;
    assert Rule(cs, last);
    if Contiguous(cs) {
      forall i: nat, j: nat | i < j < |cs| && Is(cs, i, IDAT) && !Is(cs, j, IDAT) ensures DataBefore(cs, j) {
        var k: nat :| k < last && Data(cs, k);
        assert k != j && (j < k ==> Is(cs, j, IDAT));
      }
    }
    if NoEarlyGap(cs) {
      forall i: nat, j: nat, k: nat | i < j < k && Is(cs, i, IDAT) && Is(cs, k, IDAT) ensures Is(cs, j, IDAT) {
        assert Rule(cs, j) && Rule(cs, k);
        if !Is(cs, j, IDAT) {
          assert DataBefore(cs, j) && Ancillary(cs, j);
          assert false;
        }
      }
    }
  }

  const tEXt: u32 := 0x7445_5874
  const HEADER: seq<byte> := [0, 0, 0, 1, 0, 0, 0, 1, 8, 0, 0, 0, 0]
  const GAPPED: seq<Chunk> :=
    [Chunk(IHDR, HEADER), Chunk(IDAT, []), Chunk(tEXt, []), Chunk(IDAT, [0]), Chunk(IEND, [])]

  // Such a file: an empty IDAT, a text chunk, then the image data.
  lemma GapAccepted()
    ensures Legal(GAPPED) && !Contiguous(GAPPED)
  {
    var g := START.(header := true);
    var end := [Chunk(IEND, [])];
    AcceptsTail(g, end);
    AcceptsPrepended(START, Chunk(IHDR, HEADER), [Chunk(IDAT, []), Chunk(tEXt, []), Chunk(IDAT, [0])] + end);
    assert GAPPED == [Chunk(IHDR, HEADER)] + ([Chunk(IDAT, []), Chunk(tEXt, []), Chunk(IDAT, [0])] + end);
    AcceptsLegal(GAPPED);
    assert Is(GAPPED, 1, IDAT) && Is(GAPPED, 3, IDAT) && !Is(GAPPED, 2, IDAT);
  }

  lemma AcceptsTail(g: Flags, end: seq<Chunk>)
    requires g == START.(header := true) && end == [Chunk(IEND, [])]
    ensures Accepts(g, [Chunk(IDAT, []), Chunk(tEXt, []), Chunk(IDAT, [0])] + end)
  {
    assert Accepts(g.(idat := true), end);
    AcceptsPrepended(g, Chunk(IDAT, [0]), end);
    AcceptsPrepended(g, Chunk(tEXt, []), [Chunk(IDAT, [0])] + end);
    AcceptsPrepended(g, Chunk(IDAT, []), [Chunk(tEXt, [])] + ([Chunk(IDAT, [0])] + end));
    assert [Chunk(IDAT, [])] + ([Chunk(tEXt, [])] + ([Chunk(IDAT, [0])] + end))
        == [Chunk(IDAT, []), Chunk(tEXt, []), Chunk(IDAT, [0])] + end;
  }

  // ---------------------------------------------------------------- one chunk at the front

  // A whole chunk with a matching checksum starts at the front of b.
  predicate Starts(b: seq<byte>) {
    |b| >= 12 && Value(b, 0) <= |b| - 12 &&
    Value(b, 8 + Value(b, 0)) == Crc.Checksum(b[4..8 + Value(b, 0)])
  }

  function Front(b: seq<byte>): (c: Chunk)
    requires Starts(b)
    ensures |c.data| == Value(b, 0)
  {
    Chunk(Value(b, 4), b[8..8 + Value(b, 0)])
  }

  lemma ValueOf(b: seq<byte>, p: nat, field: seq<byte>)
    requires p + 4 <= |b| && field == b[p..p + 4]
    ensures Value(b, p) == Value(field, 0)
  {
  }

  lemma Cut(kind: u32, data: seq<byte>, crc: u32, rest: seq<byte>)
    requires |data| < U32_RANGE
    ensures var b := BigEndian(|data|) + BigEndian(kind) + data + BigEndian(crc) + rest;
            && |b| == 12 + |data| + |rest|
            && Value(b, 0) == |data| && Value(b, 4) == kind && Value(b, 8 + |data|) == crc
            && b[4..8 + |data|] == BigEndian(kind) + data && b[8..8 + |data|] == data && b[12 + |data|..] == rest
  {
  }

  lemma Paste(b: seq<byte>, n: nat)
    requires |b| >= 12 + n && Value(b, 0) == n
    ensures b == BigEndian(n) + BigEndian(Value(b, 4)) + b[8..8 + n] + BigEndian(Value(b, 8 + n)) + b[12 + n..]
    ensures b[4..8 + n] == BigEndian(Value(b, 4)) + b[8..8 + n]
  {
    ValueOf(b, 0, b[0..4]);
    ValueOf(b, 4, b[4..8]);
    ValueOf(b, 8 + n, b[8 + n..12 + n]);
    BigEndianValue(b[0..4]);
    BigEndianValue(b[4..8]);
    BigEndianValue(b[8 + n..12 + n]);
  }

  lemma FrontOf(c: Chunk, rest: seq<byte>)
    requires |c.data| < U32_RANGE
    ensures Starts(Raw(c) + rest) && Front(Raw(c) + rest) == c && (Raw(c) + rest)[12 + |c.data|..] == rest
  {
    Cut(c.kind, c.data, Crc.Checksum(BigEndian(c.kind) + c.data), rest);
  }

  lemma RawOfFront(b: seq<byte>)
    requires Starts(b)
    ensures b == Raw(Front(b)) + b[12 + Value(b, 0)..]
  {
    Paste(b, Value(b, 0));
  }

  // b is the rest of a file the grammar accepts from these flags.
  ghost predicate Remainder(f: Flags, b: seq<byte>) {
    exists cs :: Sized(cs) && b == Serialize(cs) && Accepts(f, cs)
  }

  lemma RemainderStarts(f: Flags, b: seq<byte>)
    requires Remainder(f, b)
    ensures Starts(b)
  {
    var cs :| Sized(cs) && b == Serialize(cs) && Accepts(f, cs);
    FrontOf(cs[0], Serialize(cs[1..]));
  }

  // The test on the front chunk c, and the question left for the bytes after it.
  ghost predicate Continues(f: Flags, c: Chunk, rest: seq<byte>) {
    && Named(c.kind) && (f.header || c.kind == IHDR)
    && if c.kind == IEND then c.data == [] && f.idat && rest == []
       else Next(f, c).Some? && Remainder(Next(f, c).value, rest)
  }

  lemma RemainderContinues(f: Flags, b: seq<byte>, cs: seq<Chunk>)
    requires Starts(b) && Sized(cs) && b == Serialize(cs) && Accepts(f, cs)
    ensures Continues(f, Front(b), b[12 + |Front(b).data|..])
  {
    FrontOf(cs[0], Serialize(cs[1..]));
  }

  lemma Prepend(c: Chunk, more: seq<Chunk>)
    requires Sized(more) && |c.data| < U32_RANGE
    ensures ([c] + more)[1..] == more && Sized([c] + more) && Serialize([c] + more) == Raw(c) + Serialize(more)
  {
  }

  lemma RemainderOf(f: Flags, b: seq<byte>, c: Chunk, more: seq<Chunk>)
    requires Sized(more) && |c.data| < U32_RANGE && b == Raw(c) + Serialize(more)
    requires Accepts(f, [c] + more)
    ensures Remainder(f, b)
  {
    Prepend(c, more);
  }

  lemma ContinuesRemainder(f: Flags, b: seq<byte>, c: Chunk, rest: seq<byte>)
    requires |c.data| < U32_RANGE && b == Raw(c) + rest
    requires Continues(f, c, rest)
    ensures Remainder(f, b)
  {
    if c.kind == IEND {
      AcceptsPrepended(f, c, []);
      RemainderOf(f, b, c, []);
    } else {
      var more :| Sized(more) && rest == Serialize(more) && Accepts(Next(f, c).value, more);
      AcceptsPrepended(f, c, more);
      RemainderOf(f, b, c, more);
    }
  }

  lemma AcceptsPrepended(f: Flags, c: Chunk, more: seq<Chunk>)
    requires Named(c.kind) && (f.header || c.kind == IHDR)
    requires if c.kind == IEND then c.data == [] && f.idat && more == []
             else Next(f, c).Some? && Accepts(Next(f, c).value, more)
    ensures Accepts(f, [c] + more)
  {
  }

  // The decision on the front chunk reduces the question to the bytes after it.
  lemma RemainderStep(f: Flags, b: seq<byte>)
    requires Starts(b)
    ensures Remainder(f, b) <==> Continues(f, Front(b), b[12 + |Front(b).data|..])
  {
    if Remainder(f, b) {
      var cs :| Sized(cs) && b == Serialize(cs) && Accepts(f, cs);
      RemainderContinues(f, b, cs);
    }
    if Continues(f, Front(b), b[12 + |Front(b).data|..]) {
      RawOfFront(b);
      ContinuesRemainder(f, b, Front(b), b[12 + |Front(b).data|..]);
    }
  }

  // ---------------------------------------------------------------- the walk

  lemma {:induction false} EndLength(cs: seq<Chunk>)
    requires Sized(cs) && cs != []
    ensures |Serialize(cs)| >= 12 * |cs|
  {
    if |cs| > 1 {
      EndLength(cs[1..]);
    }
  }

  // The 45-byte minimum refuses nothing the grammar accepts.
  lemma LegalIsLong(cs: seq<Chunk>)
    requires Legal(cs)
    ensures |Serialize(cs)| >= 37
  {
    assert Rule(cs, 0);
    EndLength(cs[1..]);
  }

  lemma IsPngIsRemainder(bytes: seq<byte>)
    requires 8 <= |bytes| <= MAX_BYTES && bytes[..8] == SIGNATURE
    ensures IsPng(bytes) <==> Remainder(START, bytes[8..])
  {
    assert bytes == SIGNATURE + bytes[8..];
    if IsPng(bytes) {
      var cs :| Legal(cs) && bytes == SIGNATURE + Serialize(cs);
      assert Serialize(cs) == bytes[8..];
      AcceptsLegal(cs);
    }
    if Remainder(START, bytes[8..]) {
      var cs :| Sized(cs) && bytes[8..] == Serialize(cs) && Accepts(START, cs);
      AcceptsLegal(cs);
    }
  }

  lemma IsPngHeader(bytes: seq<byte>)
    requires IsPng(bytes)
    ensures |bytes| >= 45 && bytes[..8] == SIGNATURE
  {
    var cs :| Legal(cs) && bytes == SIGNATURE + Serialize(cs);
    LegalIsLong(cs);
  }

  // The chunk at p, if a whole one with a matching checksum stands there.
  method ReadChunk(table: array<u32>, bytes: seq<byte>, p: nat) returns (c: Option<Chunk>)
    requires Crc.IsTable(table[..]) && p < |bytes|
    ensures c.None? <==> !Starts(bytes[p..])
    ensures c.Some? ==> c.value == Front(bytes[p..])
  {
    ghost var b := bytes[p..];
    if |bytes| - p < 12 {
      return None;
    }
    var length := Value(bytes, p);
    assert length == Value(b, 0);
    if length > |bytes| - p - 12 {
      return None;
    }
    var crc := Crc.Compute(table, bytes, p + 4, p + 8 + length);
    assert bytes[p + 4..p + 8 + length] == b[4..8 + length];
    assert Value(bytes, p + 8 + length) == Value(b, 8 + length);
    if crc != Value(bytes, p + 8 + length) {
      return None;
    }
    assert bytes[p + 8..p + 8 + length] == b[8..8 + length];
    return Some(Chunk(Value(bytes, p + 4), bytes[p + 8..p + 8 + length]));
  }

  lemma DropTwice(b: seq<byte>, p: nat, n: nat)
    requires p + n <= |b|
    ensures b[p..][n..] == b[p + n..]
  {
  }

  lemma WalkStep(f: Flags, bytes: seq<byte>, p: nat, c: Chunk)
    requires p <= |bytes| && Starts(bytes[p..]) && c == Front(bytes[p..])
    ensures p + 12 + |c.data| <= |bytes|
    ensures Remainder(f, bytes[p..]) <==> Continues(f, c, bytes[p + 12 + |c.data|..])
  {
    RemainderStep(f, bytes[p..]);
    DropTwice(bytes, p, 12 + |c.data|);
  }

  // The loop, past the signature.
  method Walk(table: array<u32>, bytes: seq<byte>) returns (ok: bool)
    requires Crc.IsTable(table[..]) && |bytes| >= 8
    ensures ok <==> Remainder(START, bytes[8..])
  {
    var f := START;
    var p := 8;
    ghost var accepted := Remainder(START, bytes[8..]);
    while p < |bytes|
      invariant 8 <= p <= |bytes|
      invariant accepted <==> Remainder(f, bytes[p..])
      decreases |bytes| - p
    {
      var read := ReadChunk(table, bytes, p);
      if read.None? {
        NoStart(f, bytes[p..]);
        return false;
      }
      var c := read.value;
      WalkStep(f, bytes, p, c);
      if !Named(c.kind) || (!f.header && c.kind != IHDR) {
        assert !accepted;
        return false;
      }
      if c.kind == IEND {
        ok := |c.data| == 0 && f.idat && p + 12 == |bytes|;
        assert ok <==> accepted;
        return;
      }
      var next := Next(f, c);
      if next.None? {
        assert !accepted;
        return false;
      }
      f, p := next.value, p + 12 + |c.data|;
    }
    NoStart(f, bytes[p..]);
    return false;
  }

  lemma NoStart(f: Flags, b: seq<byte>)
    requires !Starts(b)
    ensures !Remainder(f, b)
  {
    if Remainder(f, b) {
      RemainderStarts(f, b);
    }
  }

  method Structure(bytes: seq<byte>) returns (ok: bool)
    ensures ok <==> IsPng(bytes)
  {
    if IsPng(bytes) {
      IsPngHeader(bytes);
    }
    if |bytes| < 45 || |bytes| > MAX_BYTES || bytes[..8] != SIGNATURE {
      return false;
    }
    IsPngIsRemainder(bytes);
    var table := Crc.MakeTable();
    ok := Walk(table, bytes);
  }
}
