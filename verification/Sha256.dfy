// SHA-256 as Codec.cpp computes it, padding each block on the fly, against the standard applied
// to the explicitly padded message (FIPS 180-4, sections 4.1.2, 4.2.2, 5.1.1, 5.2.1, 5.3.3, 6.2.2).
module Sha256 {
  import opened Common
  import opened Words

  // ---------------------------------------------------------------- the standard

  const K0: seq<u32> := [0x428a2f98, 0x71374491, 0xb5c0fbcf, 0xe9b5dba5, 0x3956c25b, 0x59f111f1, 0x923f82a4, 0xab1c5ed5]
  const K1: seq<u32> := [0xd807aa98, 0x12835b01, 0x243185be, 0x550c7dc3, 0x72be5d74, 0x80deb1fe, 0x9bdc06a7, 0xc19bf174]
  const K2: seq<u32> := [0xe49b69c1, 0xefbe4786, 0x0fc19dc6, 0x240ca1cc, 0x2de92c6f, 0x4a7484aa, 0x5cb0a9dc, 0x76f988da]
  const K3: seq<u32> := [0x983e5152, 0xa831c66d, 0xb00327c8, 0xbf597fc7, 0xc6e00bf3, 0xd5a79147, 0x06ca6351, 0x14292967]
  const K4: seq<u32> := [0x27b70a85, 0x2e1b2138, 0x4d2c6dfc, 0x53380d13, 0x650a7354, 0x766a0abb, 0x81c2c92e, 0x92722c85]
  const K5: seq<u32> := [0xa2bfe8a1, 0xa81a664b, 0xc24b8b70, 0xc76c51a3, 0xd192e819, 0xd6990624, 0xf40e3585, 0x106aa070]
  const K6: seq<u32> := [0x19a4c116, 0x1e376c08, 0x2748774c, 0x34b0bcb5, 0x391c0cb3, 0x4ed8aa4a, 0x5b9cca4f, 0x682e6ff3]
  const K7: seq<u32> := [0x748f82ee, 0x78a5636f, 0x84c87814, 0x8cc70208, 0x90befffa, 0xa4506ceb, 0xbef9a3f7, 0xc67178f2]

  const K: seq<u32> := K0 + K1 + K2 + K3 + K4 + K5 + K6 + K7

  datatype Vars = Vars(a: u32, b: u32, c: u32, d: u32, e: u32, f: u32, g: u32, h: u32)

  const H0: Vars := Vars(0x6a09e667, 0xbb67ae85, 0x3c6ef372, 0xa54ff53a, 0x510e527f, 0x9b05688c, 0x1f83d9ab, 0x5be0cd19)

  function Ch(x: u32, y: u32, z: u32): u32 { Xor(And(x, y), And(Not(x), z)) }
  function Maj(x: u32, y: u32, z: u32): u32 { Xor(Xor(And(x, y), And(x, z)), And(y, z)) }
  function BigSigma0(x: u32): u32 { Xor(Xor(Rotr(x, 2), Rotr(x, 13)), Rotr(x, 22)) }
  function BigSigma1(x: u32): u32 { Xor(Xor(Rotr(x, 6), Rotr(x, 11)), Rotr(x, 25)) }
  function SmallSigma0(x: u32): u32 { Xor(Xor(Rotr(x, 7), Rotr(x, 18)), Shr(x, 3)) }
  function SmallSigma1(x: u32): u32 { Xor(Xor(Rotr(x, 17), Rotr(x, 19)), Shr(x, 10)) }

  function Zeros(n: nat): (z: seq<byte>)
    ensures |z| == n && forall i :: 0 <= i < n ==> z[i] == 0
  {
    seq(n, _ => 0)
  }

  // v shifted down by n bytes.
  function Over(v: nat, n: nat): nat {
    if n == 0 then v else Over(v / 256, n - 1)
  }

  function LowByte(v: nat): byte { v % 256 }

  // The length in bits as eight big-endian bytes.
  function LengthField(bits: nat): (f: seq<byte>)
    ensures |f| == 8
  {
    seq(8, i requires 0 <= i < 8 => LowByte(Over(bits, 7 - i)))
  }

  // Section 5.1.1: one 1 bit, the fewest 0 bits that fill the last block, the length.
  predicate Fills(length: nat, zeros: nat) { (length + 1 + zeros + 8) % 64 == 0 }

  function ZeroBytes(length: nat): nat { (119 - length % 64) % 64 }

  function Padded(m: seq<byte>): (p: seq<byte>)
    ensures |p| == |m| + 1 + ZeroBytes(|m|) + 8
  {
    m + [0x80] + Zeros(ZeroBytes(|m|)) + LengthField(8 * |m|)
  }

  function Word(b: seq<byte>, i: nat): u32
    requires 4 * i + 4 <= |b|
  {
    0x100_0000 * ByteAt(b, 4 * i) + 0x1_0000 * ByteAt(b, 4 * i + 1) + 0x100 * ByteAt(b, 4 * i + 2) + ByteAt(b, 4 * i + 3)
  }

  function W(block: seq<byte>, t: nat): u32
    requires |block| == 64 && t < 64
  {
    if t < 16 then Word(block, t)
    else Add(Add(Add(SmallSigma1(W(block, t - 2)), W(block, t - 7)), SmallSigma0(W(block, t - 15))), W(block, t - 16))
  }

  function Round(v: Vars, k: u32, w: u32): Vars {
    var t1 := Add(Add(Add(Add(v.h, BigSigma1(v.e)), Ch(v.e, v.f, v.g)), k), w);
    var t2 := Add(BigSigma0(v.a), Maj(v.a, v.b, v.c));
    Vars(Add(t1, t2), v.a, v.b, v.c, Add(v.d, t1), v.e, v.f, v.g)
  }

  function Rounds(v: Vars, block: seq<byte>, t: nat): Vars
    requires |block| == 64 && t <= 64
  {
    if t == 0 then v else Round(Rounds(v, block, t - 1), K[t - 1], W(block, t - 1))
  }

  function Compress(v: Vars, block: seq<byte>): Vars
    requires |block| == 64
  {
    var r := Rounds(v, block, 64);
    Vars(Add(v.a, r.a), Add(v.b, r.b), Add(v.c, r.c), Add(v.d, r.d), Add(v.e, r.e), Add(v.f, r.f), Add(v.g, r.g), Add(v.h, r.h))
  }

  // The hash value after the first n blocks of a padded message.
  function Hash(padded: seq<byte>, n: nat): Vars
    requires 64 * n <= |padded|
  {
    if n == 0 then H0 else Compress(Hash(padded, n - 1), padded[64 * (n - 1)..64 * n])
  }

  function WordBytes(x: u32): seq<byte> {
    [LowByte(x / 0x100_0000), LowByte(x / 0x1_0000), LowByte(x / 0x100), LowByte(x)]
  }

  function Output(v: Vars): seq<byte> {
    WordBytes(v.a) + WordBytes(v.b) + WordBytes(v.c) + WordBytes(v.d)
    + WordBytes(v.e) + WordBytes(v.f) + WordBytes(v.g) + WordBytes(v.h)
  }

  function Final(padded: seq<byte>): seq<byte> {
    Output(Hash(padded, |padded| / 64))
  }

  function Standard(m: seq<byte>): seq<byte> {
    Final(Padded(m))
  }

  // The padding is the least that fills a block.
  lemma LeastPadding(length: nat)
    ensures Fills(length, ZeroBytes(length)) && forall z: nat :: z < ZeroBytes(length) ==> !Fills(length, z)
  {
    forall z: nat | z < ZeroBytes(length) ensures !Fills(length, z) {
      FillsExactly(length, z);
    }
    FillsExactly(length, ZeroBytes(length));
  }

  lemma FillsExactly(length: nat, z: nat)
    requires z < 64
    ensures Fills(length, z) <==> z == ZeroBytes(length)
  {
    var q, r := length / 64, length % 64;
    assert length == 64 * q + r;
    assert (length + 1 + z + 8) % 64 == (r + z + 9) % 64;
  }

  // ---------------------------------------------------------------- the implementation

  function BlockCount(length: nat): nat { length / 64 + (if length % 64 < 56 then 1 else 2) }

  // The byte the code uses at position p, with no padded copy of the message.
  function VirtualByte(m: seq<byte>, p: nat): byte
    requires p < 64 * BlockCount(|m|)
  {
    var bits := (8 * |m|) % 0x1_0000_0000_0000_0000;
    if p < |m| then m[p]
    else if p == |m| then 0x80
    else if p >= BlockCount(|m|) * 64 - 8 then LowByte(Over(bits, BlockCount(|m|) * 64 - 1 - p))
    else 0
  }

  // One or two blocks past the whole ones: exactly as many as the standard's padding makes.
  lemma BlocksArePadded(length: nat)
    ensures length + 1 + ZeroBytes(length) + 8 == 64 * BlockCount(length)
  {
  }

  // The virtual padding is the standard's padding, byte for byte; the 0x80 and the length field
  // never meet.
  lemma PaddingIsVirtual(m: seq<byte>)
    requires |m| < 0x2000_0000_0000_0000
    ensures |Padded(m)| == 64 * BlockCount(|m|) && |m| < 64 * BlockCount(|m|) - 8
    ensures forall p :: 0 <= p < |Padded(m)| ==> Padded(m)[p] == VirtualByte(m, p)
  {
  }

  function BlockOf(m: seq<byte>, block: nat): (b: seq<byte>)
    requires block < BlockCount(|m|)
    ensures |b| == 64
  {
    seq<byte>(64, i requires 0 <= i < 64 => VirtualByte(m, 64 * block + i))
  }

  // A byte shifted to its lane of a word.
  function Placed(v: nat, lane: nat): u32
    requires lane < 4 && v < 256
  {
    if lane == 0 then 0x100_0000 * v else if lane == 1 then 0x1_0000 * v else if lane == 2 then 0x100 * v else v
  }

  // The word built from its first `lanes` bytes.
  function Partial(b: seq<byte>, i: nat, lanes: nat): u32
    requires 4 * i + lanes <= |b| && lanes <= 4
  {
    if lanes == 0 then 0
    else if lanes == 1 then 0x100_0000 * ByteAt(b, 4 * i)
    else if lanes == 2 then 0x100_0000 * ByteAt(b, 4 * i) + 0x1_0000 * ByteAt(b, 4 * i + 1)
    else if lanes == 3 then 0x100_0000 * ByteAt(b, 4 * i) + 0x1_0000 * ByteAt(b, 4 * i + 1) + 0x100 * ByteAt(b, 4 * i + 2)
    else Word(b, i)
  }

  lemma PartialStep(b: seq<byte>, i: nat, lanes: nat)
    requires 4 * i + lanes + 1 <= |b| && lanes < 4
    ensures Or(Partial(b, i, lanes), Placed(ByteAt(b, 4 * i + lanes), lanes)) == Partial(b, i, lanes + 1)
  {
    PowersOfTwo();
    var x := ByteAt(b, 4 * i);
    if lanes == 0 {
      Words.OrZero(Placed(x, 0), 32);
    } else if lanes == 1 {
      OrDisjoint(x, Placed(ByteAt(b, 4 * i + 1), 1), 24, 32);
    } else if lanes == 2 {
      OrDisjoint(0x100 * x + ByteAt(b, 4 * i + 1), Placed(ByteAt(b, 4 * i + 2), 2), 16, 32);
    } else {
      OrDisjoint(0x1_0000 * x + 0x100 * ByteAt(b, 4 * i + 1) + ByteAt(b, 4 * i + 2), Placed(ByteAt(b, 4 * i + 3), 3), 8, 32);
    }
  }

  // The schedule in the code's order of addition.
  lemma AddOrder(a: u32, b: u32, c: u32, d: u32)
    ensures Add(Add(Add(a, b), c), d) == Add(Add(Add(d, c), b), a)
  {
    AddMod(a + b, c);
    AddMod(a + b + c, d);
    AddMod(d + c, b);
    AddMod(d + c + b, a);
  }

  lemma AddMod(x: nat, c: u32)
    ensures Add(x % U32_RANGE, c) == (x + c) % U32_RANGE
  {
  }

  // The sixteen message words, one byte at a time.
  method FillWords(m: seq<byte>, block: nat, w: array<u32>)
    requires block < BlockCount(|m|) && w.Length == 64
    modifies w
    ensures forall i :: 0 <= i < 16 ==> w[i] == Word(BlockOf(m, block), i)
  {
    ghost var b := BlockOf(m, block);
    var j := 0;
    while j < 64
      invariant j <= 64 && j % 4 == 0
      invariant forall i :: 0 <= i < j / 4 ==> w[i] == Word(b, i)
    {
      var i := j / 4;
      w[i] := 0;
      var lane := 0;
      while lane < 4
        invariant lane <= 4 && w[i] == Partial(b, i, lane)
        invariant forall k :: 0 <= k < i ==> w[k] == Word(b, k)
      {
        PartialStep(b, i, lane);
        assert ByteAt(b, 4 * i + lane) == VirtualByte(m, 64 * block + 4 * i + lane);
        w[i] := Or(w[i], Placed(VirtualByte(m, 64 * block + 4 * i + lane), lane));
        lane := lane + 1;
      }
      j := j + 4;
    }
  }

  method Expand(ghost b: seq<byte>, w: array<u32>)
    requires |b| == 64 && w.Length == 64 && forall i :: 0 <= i < 16 ==> w[i] == Word(b, i)
    modifies w
    ensures forall t :: 0 <= t < 64 ==> w[t] == W(b, t)
  {
    var j := 16;
    while j < 64
      invariant 16 <= j <= 64 && forall t :: 0 <= t < j ==> w[t] == W(b, t)
    {
      AddOrder(w[j - 16], SmallSigma0(w[j - 15]), w[j - 7], SmallSigma1(w[j - 2]));
      w[j] := Add(Add(Add(w[j - 16], SmallSigma0(w[j - 15])), w[j - 7]), SmallSigma1(w[j - 2]));
      j := j + 1;
    }
  }

  function VarsOf(h: seq<u32>): Vars
    requires |h| == 8
  {
    Vars(h[0], h[1], h[2], h[3], h[4], h[5], h[6], h[7])
  }

  method CompressInto(h: array<u32>, w: array<u32>, ghost block: seq<byte>)
    requires h.Length == 8 && w.Length == 64 && h != w
    requires |block| == 64 && forall t :: 0 <= t < 64 ==> w[t] == W(block, t)
    modifies h
    ensures VarsOf(h[..]) == Compress(VarsOf(old(h[..])), block)
  {
    var a, b, c, d := h[0], h[1], h[2], h[3];
    var e, f, g, v := h[4], h[5], h[6], h[7];
    var j := 0;
    while j < 64
      invariant j <= 64 && h[..] == old(h[..])
      invariant Vars(a, b, c, d, e, f, g, v) == Rounds(VarsOf(old(h[..])), block, j)
    {
      var t := Add(Add(Add(Add(v, BigSigma1(e)), Ch(e, f, g)), K[j]), w[j]);
      var u := Add(BigSigma0(a), Maj(a, b, c));
      v, g, f, e := g, f, e, Add(d, t);
      d, c, b, a := c, b, a, Add(t, u);
      j := j + 1;
    }
    h[0], h[1], h[2], h[3] := Add(h[0], a), Add(h[1], b), Add(h[2], c), Add(h[3], d);
    h[4], h[5], h[6], h[7] := Add(h[4], e), Add(h[5], f), Add(h[6], g), Add(h[7], v);
  }

  lemma BlockIsSlice(m: seq<byte>, block: nat, padded: seq<byte>)
    requires block < BlockCount(|m|)
    requires |padded| == 64 * BlockCount(|m|) && forall p :: 0 <= p < |padded| ==> padded[p] == VirtualByte(m, p)
    ensures padded[64 * block..64 * (block + 1)] == BlockOf(m, block)
  {
  }

  // One iteration of the block loop.
  method ProcessBlock(m: seq<byte>, block: nat, h: array<u32>, w: array<u32>, ghost padded: seq<byte>)
    requires block < BlockCount(|m|) && h.Length == 8 && w.Length == 64 && h != w
    requires |padded| == 64 * BlockCount(|m|) && forall p :: 0 <= p < |padded| ==> padded[p] == VirtualByte(m, p)
    requires VarsOf(h[..]) == Hash(padded, block)
    modifies h, w
    ensures VarsOf(h[..]) == Hash(padded, block + 1)
  {
    FillWords(m, block, w);
    ghost var b := padded[64 * block..64 * (block + 1)];
    BlockIsSlice(m, block, padded);
    Expand(b, w);
    CompressInto(h, w, b);
  }

  method InitialHash() returns (h: array<u32>)
    ensures fresh(h) && h.Length == 8 && VarsOf(h[..]) == H0
  {
    h := new u32[8];
    h[0], h[1], h[2], h[3] := 0x6a09e667, 0xbb67ae85, 0x3c6ef372, 0xa54ff53a;
    h[4], h[5], h[6], h[7] := 0x510e527f, 0x9b05688c, 0x1f83d9ab, 0x5be0cd19;
  }

  // The digest bytes, one word at a time.
  method Emit(h: array<u32>, ghost padded: seq<byte>) returns (out: seq<byte>)
    requires h.Length == 8 && VarsOf(h[..]) == Hash(padded, |padded| / 64)
    ensures out == Final(padded)
  {
    out := WordBytes(h[0]) + WordBytes(h[1]) + WordBytes(h[2]) + WordBytes(h[3])
           + WordBytes(h[4]) + WordBytes(h[5]) + WordBytes(h[6]) + WordBytes(h[7]);
  }

  // The block loop.
  method HashBlocks(m: seq<byte>, ghost padded: seq<byte>) returns (h: array<u32>)
    requires |padded| == 64 * BlockCount(|m|) && forall p :: 0 <= p < |padded| ==> padded[p] == VirtualByte(m, p)
    ensures h.Length == 8 && VarsOf(h[..]) == Hash(padded, |padded| / 64)
  {
    assert |padded| / 64 == BlockCount(|m|);
    h := InitialHash();
    var w := new u32[64];
    var block := 0;
    while block < BlockCount(|m|)
      invariant block <= BlockCount(|m|) && VarsOf(h[..]) == Hash(padded, block)
    {
      ProcessBlock(m, block, h, w, padded);
      block := block + 1;
    }
  }

  // The digest of every message under 2^61 bytes is the standard's.
  method Digest(m: seq<byte>) returns (out: seq<byte>)
    requires |m| < 0x2000_0000_0000_0000
    ensures out == Standard(m)
  {
    PaddingIsVirtual(m);
    ghost var padded := Padded(m);
    var h := HashBlocks(m, padded);
    out := Emit(h, padded);
  }
}
