// The broker protocol's frames on the pipe (common/src/SteamBroker.cpp, encode and decode).
module SteamFrame {
  import opened Common
  import opened Bytes
  import opened SteamBroker

  const MAGIC: nat := 0x31504253
  const HEADER: seq<nat> := [4, 1, 1, 1, 1, 8, 8, 4, 4]

  function OpCode(op: Op): (c: nat)
    ensures 1 <= c <= 13
  {
    match op
    case Hello => 1
    case Host => 2
    case Join => 3
    case Send => 4
    case Close => 5
    case Stop => 6
    case Ready => 7
    case Connected => 8
    case Disconnected => 9
    case Data => 10
    case Error => 11
    case Ping => 12
    case Stats => 13
  }

  function OpOf(code: nat): Op
    requires 1 <= code <= 13
  {
    [Hello, Host, Join, Send, Close, Stop, Ready, Connected, Disconnected, Data, Error, Ping, Stats][code - 1]
  }

  function HeaderOf(f: Frame, sequence: nat): (h: seq<nat>)
    ensures |h| == |HEADER|
  {
    [MAGIC, 1, OpCode(f.op), f.channel, if f.reliable then 1 else 0, sequence, f.peer, f.reason, |f.bytes|]
  }

  predicate Encodable(f: Frame, sequence: nat) {
    sequence != 0 && |f.bytes| <= MAX_PACKET && f.channel < 3
  }

  function Encode(f: Frame, sequence: nat): seq<byte> {
    if !Encodable(f, sequence) then [] else PutAll(HEADER, HeaderOf(f, sequence)) + f.bytes
  }

  function Decode(b: seq<byte>, sequence: nat): Option<Frame> {
    match GetAll(HEADER, b)
    case None => None
    case Some((h, rest)) =>
      if |h| != |HEADER| || sequence == 0 || |b| > MAX_PACKET + 32 || h[0] != MAGIC || h[1] != 1 || h[2] < 1 || h[2] > 13 ||
         h[3] >= 3 || h[4] > 1 || h[5] != sequence || h[8] != |b| - 32
      then None
      else Some(Frame(OpOf(h[2]), h[6], h[7], h[3], h[4] != 0, rest))
  }

  // The frame's numbers are machine words.
  predicate Words(f: Frame, sequence: nat) {
    sequence < U64_RANGE && f.peer < U64_RANGE && f.reason < U32_RANGE
  }

  lemma Powers()
    ensures Pow256(1) == 256 && Pow256(2) == U16_RANGE && Pow256(4) == U32_RANGE && Pow256(8) == U64_RANGE
  {
  }

  lemma HeaderFits(f: Frame, sequence: nat)
    requires Encodable(f, sequence) && Words(f, sequence)
    ensures Fits(HEADER, HeaderOf(f, sequence)) && Width(HEADER) == 32
  {
    Powers();
    WidthOfHeader();
  }

  lemma WidthOfHeader()
    ensures Width(HEADER) == 32
  {
  }

  // Every frame the broker or the runtime can encode comes back unchanged, and only under the
  // sequence number it was sent with.
  lemma DecodeEncode(f: Frame, sequence: nat, expected: nat)
    requires Encodable(f, sequence) && Words(f, sequence)
    ensures Decode(Encode(f, sequence), expected) == if expected == sequence then Some(f) else None
  {
    HeaderFits(f, sequence);
    GetAllPutAll(HEADER, HeaderOf(f, sequence), f.bytes);
    OpRoundTrip(f.op);
    var b := Encode(f, sequence);
    assert |b| == 32 + |f.bytes|;
    assert GetAll(HEADER, b) == Some((HeaderOf(f, sequence), f.bytes));
  }

  lemma OpRoundTrip(op: Op)
    ensures OpOf(OpCode(op)) == op
  {
  }

  // Bytes the decoder accepts are exactly the encoding of what it returns.
  lemma EncodeDecode(b: seq<byte>, sequence: nat)
    requires Decode(b, sequence).Some?
    ensures Encode(Decode(b, sequence).value, sequence) == b
  {
    PutAllGetAll(HEADER, b);
    WidthOfHeader();
    var (h, rest) := GetAll(HEADER, b).value;
    var f := Decode(b, sequence).value;
    assert OpCode(OpOf(h[2])) == h[2];
    assert HeaderOf(f, sequence) == h;
  }
}
