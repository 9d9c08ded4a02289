// What the constants of the chunk walk and its checksum are (ISO/IEC 15948, sections 5.2, 5.3, 5.5,
// 11.2.2 and annex D), and how every accepted file begins and ends.
module PngMeaning {
  import opened Common
  import opened Words
  import Crc
  import opened Png

  // ---------------------------------------------------------------- the checksum

  lemma ManyPowers()
    ensures Pow2(5) == 0x20 && Pow2(8) == 0x100 && Pow2(9) == 0x200 && Pow2(15) == 0x8000 && Pow2(19) == 0x8_0000
    ensures Pow2(20) == 0x10_0000 && Pow2(21) == 0x20_0000 && Pow2(23) == 0x80_0000 && Pow2(24) == 0x100_0000
    ensures Pow2(26) == 0x400_0000 && Pow2(27) == 0x800_0000 && Pow2(29) == 0x2000_0000 && Pow2(30) == 0x4000_0000
    ensures Pow2(31) == 0x8000_0000
  {
    assert Pow2(5) == 0x20;
    assert Pow2(10) == 0x400;
    assert Pow2(15) == 0x8000;
    assert Pow2(20) == 0x10_0000;
    assert Pow2(25) == 0x200_0000;
    assert Pow2(30) == 0x4000_0000;
  }

  // The coefficient of x^k stands at bit 31 - k of the register. Annex D: below x^32 the generating
  // polynomial has the terms 26, 23, 22, 16, 12, 11, 10, 8, 7, 5, 4, 2, 1 and 0.
  lemma PolynomialTerms()
    ensures Crc.POLYNOMIAL ==
            Pow2(31 - 26) + Pow2(31 - 23) + Pow2(31 - 22) + Pow2(31 - 16) + Pow2(31 - 12) + Pow2(31 - 11) + Pow2(31 - 10)
            + Pow2(31 - 8) + Pow2(31 - 7) + Pow2(31 - 5) + Pow2(31 - 4) + Pow2(31 - 2) + Pow2(31 - 1) + Pow2(31 - 0)
  {
    ManyPowers();
  }

  // ---------------------------------------------------------------- names and headers

  // The four chunk kinds are their names in ASCII.
  lemma KindsAreNames()
    ensures BigEndian(IHDR) == [73, 72, 68, 82] && BigEndian(PLTE) == [80, 76, 84, 69]
    ensures BigEndian(IDAT) == [73, 68, 65, 84] && BigEndian(IEND) == [73, 69, 78, 68]
  {
  }

  // Section 11.2.2: depths are powers of two up to 16; a palette has at most 8 bits, colour and alpha
  // at least 8.
  lemma LegalDepthIff(color: nat, depth: nat)
    ensures LegalDepth(color, depth) <==>
            && depth in {1, 2, 4, 8, 16} && color in {0, 2, 3, 4, 6}
            && (color == 3 ==> depth <= 8) && (color != 0 && color != 3 ==> depth >= 8)
  {
  }

  // ---------------------------------------------------------------- how a file begins and ends

  lemma Suffix(a: seq<byte>, rest: seq<byte>, last: seq<byte>)
    requires |rest| >= |last| && rest[|rest| - |last|..] == last
    ensures (a + rest)[|a + rest| - |last|..] == last
  {
  }

  lemma OneChunk(c: Chunk)
    requires |c.data| < U32_RANGE
    ensures Serialize([c]) == Raw(c)
  {
    assert [c][1..] == [];
    assert Raw(c) + [] == Raw(c);
  }

  lemma {:induction false} EndsWithLast(cs: seq<Chunk>)
    requires Sized(cs) && cs != []
    ensures var b := Serialize(cs);
            var last := Raw(cs[|cs| - 1]);
            |b| >= |last| && b[|b| - |last|..] == last
    decreases |cs|
  {
    if |cs| == 1 {
      assert cs == [cs[0]];
      OneChunk(cs[0]);
    } else {
      EndsWithLast(cs[1..]);
      assert cs[1..][|cs[1..]| - 1] == cs[|cs| - 1];
      Suffix(Raw(cs[0]), Serialize(cs[1..]), Raw(cs[|cs| - 1]));
    }
  }

  lemma Four(a: seq<byte>, b: seq<byte>, c: seq<byte>, d: seq<byte>, rest: seq<byte>)
    requires |a| == |b| == 4
    ensures |a + b + c + d + rest| >= 8 && (a + b + c + d + rest)[..8] == a + b
    ensures c == [] ==> a + b + c + d == a + b + d
  {
  }

  lemma RawBegins(c: Chunk, rest: seq<byte>)
    requires |c.data| < U32_RANGE
    ensures |Raw(c) + rest| >= 12 + |c.data| && (Raw(c) + rest)[..8] == BigEndian(|c.data|) + BigEndian(c.kind)
    ensures c.data == [] ==> Raw(c) == BigEndian(0) + BigEndian(c.kind) + BigEndian(Crc.Checksum(BigEndian(c.kind)))
  {
    Four(BigEndian(|c.data|), BigEndian(c.kind), c.data, BigEndian(Crc.Checksum(BigEndian(c.kind) + c.data)), rest);
    if c.data == [] {
      assert BigEndian(c.kind) + c.data == BigEndian(c.kind);
    }
  }

  lemma Sizes()
    ensures BigEndian(0) + BigEndian(IEND) == [0, 0, 0, 0, 73, 69, 78, 68]
    ensures BigEndian(13) + BigEndian(IHDR) == [0, 0, 0, 13, 73, 72, 68, 82]
  {
    KindsAreNames();
    assert BigEndian(0) == [0, 0, 0, 0] && BigEndian(13) == [0, 0, 0, 13];
  }

  lemma LegalEnds(cs: seq<Chunk>)
    requires Legal(cs)
    ensures cs[|cs| - 1] == Chunk(IEND, []) && cs[0].kind == IHDR && |cs[0].data| == 13
  {
    assert Rule(cs, 0) && Rule(cs, |cs| - 1);
  }

  lemma SerializedBegins(cs: seq<Chunk>)
    requires Sized(cs) && cs != [] && cs[0].kind == IHDR && |cs[0].data| == 13
    ensures |Serialize(cs)| >= 20 && Serialize(cs)[..8] == [0, 0, 0, 13, 73, 72, 68, 82]
  {
    Sizes();
    RawBegins(cs[0], Serialize(cs[1..]));
  }

  lemma SerializedEnds(cs: seq<Chunk>)
    requires Sized(cs) && cs != [] && cs[|cs| - 1] == Chunk(IEND, [])
    ensures var b := Serialize(cs);
            |b| >= 12 && b[|b| - 12..] == [0, 0, 0, 0, 73, 69, 78, 68] + BigEndian(Crc.Checksum(BigEndian(IEND)))
  {
    Sizes();
    RawBegins(Chunk(IEND, []), []);
    EndsWithLast(cs);
  }

  // Every accepted file starts with the signature and a 13-byte IHDR, and ends with an empty IEND.
  lemma FirstAndLast(bytes: seq<byte>)
    requires IsPng(bytes)
    ensures |bytes| >= 28 && bytes[..8] == SIGNATURE && bytes[8..16] == [0, 0, 0, 13, 73, 72, 68, 82]
    ensures bytes[|bytes| - 12..] == [0, 0, 0, 0, 73, 69, 78, 68] + BigEndian(Crc.Checksum(BigEndian(IEND)))
  {
    var cs :| Legal(cs) && bytes == SIGNATURE + Serialize(cs);
    LegalEnds(cs);
    SerializedBegins(cs);
    SerializedEnds(cs);
    Behind(SIGNATURE, Serialize(cs));
  }

  lemma Behind(a: seq<byte>, b: seq<byte>)
    requires |a| == 8 && |b| >= 20
    ensures (a + b)[..8] == a && (a + b)[8..16] == b[..8] && (a + b)[|a + b| - 12..] == b[|b| - 12..]
  {
  }
}
