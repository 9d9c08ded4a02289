// What the parts of SHA-256 compute, bit by bit and step by step (FIPS 180-4, sections 2.2.2, 3.1,
// 4.1.2 and 6.2.2): the logical functions, the order of bytes in a word, and the round as two
// sequences of words.
module Sha256Meaning {
  import opened Common
  import opened Words
  import opened Sha256

  // ---------------------------------------------------------------- bits

  // Bit number i of x, the least significant first.
  function Bit(x: nat, i: nat): nat
    decreases i
  {
    if i == 0 then x % 2 else Bit(x / 2, i - 1)
  }

  lemma {:induction false} XorBit(x: nat, y: nat, n: nat, i: nat)
    requires i < n
    ensures Bit(XorBits(x, y, n), i) == (Bit(x, i) + Bit(y, i)) % 2
    decreases i
  {
    assert XorBits(x, y, n) % 2 == (if x % 2 == y % 2 then 0 else 1) && XorBits(x, y, n) / 2 == XorBits(x / 2, y / 2, n - 1);
    if i > 0 {
      XorBit(x / 2, y / 2, n - 1, i - 1);
    }
  }

  lemma {:induction false} AndBit(x: nat, y: nat, n: nat, i: nat)
    requires i < n
    ensures Bit(AndBits(x, y, n), i) == (if Bit(x, i) == 1 && Bit(y, i) == 1 then 1 else 0)
    decreases i
  {
    assert (x % 2) * (y % 2) == if x % 2 == 1 && y % 2 == 1 then 1 else 0;
    if i > 0 {
      AndBit(x / 2, y / 2, n - 1, i - 1);
    }
  }

  lemma {:induction false} OrBit(x: nat, y: nat, n: nat, i: nat)
    requires i < n
    ensures Bit(OrBits(x, y, n), i) == (if Bit(x, i) == 1 || Bit(y, i) == 1 then 1 else 0)
    decreases i
  {
    assert OrBits(x, y, n) % 2 == (if x % 2 == 1 || y % 2 == 1 then 1 else 0) && OrBits(x, y, n) / 2 == OrBits(x / 2, y / 2, n - 1);
    if i > 0 {
      OrBit(x / 2, y / 2, n - 1, i - 1);
    }
  }

  lemma {:induction false} NotBit(x: nat, n: nat, i: nat)
    requires i < n && x < Pow2(n)
    ensures Bit(Pow2(n) - 1 - x, i) == 1 - Bit(x, i)
    decreases i
  {
    var y := Pow2(n) - 1 - x;
    assert Pow2(n) == 2 * Pow2(n - 1);
    assert y / 2 == Pow2(n - 1) - 1 - x / 2 && y % 2 == 1 - x % 2;
    if i > 0 {
      NotBit(x / 2, n - 1, i - 1);
    }
  }

  lemma {:induction false} ShrBit(x: nat, k: nat, i: nat)
    ensures Bit(Shr(x, k), i) == Bit(x, i + k)
    decreases k
  {
    if k > 0 {
      ShrBit(x / 2, k - 1, i);
    }
  }

  lemma {:induction false} NoHighBit(x: nat, n: nat, i: nat)
    requires x < Pow2(n) && n <= i
    ensures Bit(x, i) == 0
    decreases i
  {
    if i > 0 {
      if n > 0 {
        NoHighBit(x / 2, n - 1, i - 1);
      } else {
        NoHighBit(0, 0, i - 1);
      }
    }
  }

  lemma {:induction false} LeftBit(x: nat, k: nat, i: nat)
    ensures Bit(x * Pow2(k), i) == if i < k then 0 else Bit(x, i - k)
    decreases k
  {
    if k == 0 {
      assert x * Pow2(0) == x;
    } else {
      DoublePow2(x, k);
      var y := x * Pow2(k - 1);
      assert (2 * y) % 2 == 0 && (2 * y) / 2 == y;
      if i > 0 {
        LeftBit(x, k - 1, i - 1);
      }
    }
  }

  lemma HalfRemainder(q: nat, m: nat, r: nat)
    requires r < 2 * m
    ensures (2 * m * q + r) / 2 == m * q + r / 2 && (2 * m * q + r) % 2 == r % 2
  {
    assert 2 * m * q == 2 * (m * q);
  }

  // A multiple of 2^n has no bits below n.
  lemma {:induction false} LowBits(q: nat, r: nat, n: nat, i: nat)
    requires r < Pow2(n) && i < n
    ensures Bit(Pow2(n) * q + r, i) == Bit(r, i)
    decreases i
  {
    var m := Pow2(n - 1);
    assert Pow2(n) == 2 * m;
    HalfRemainder(q, m, r);
    if i > 0 {
      LowBits(q, r / 2, n - 1, i - 1);
    }
  }

  lemma WordBit(y: nat, i: nat)
    requires i < 32
    ensures Bit(y % U32_RANGE, i) == Bit(y, i)
  {
    PowersOfTwo();
    LowBits(y / U32_RANGE, y % U32_RANGE, 32, i);
    assert y == U32_RANGE * (y / U32_RANGE) + y % U32_RANGE;
  }

  // The place n above i, around the word.
  function Around(i: nat, n: nat): nat { if i + n < 32 then i + n else i + n - 32 }

  lemma RightPart(x: u32, n: nat, i: nat)
    requires 0 < n < 32 && i < 32
    ensures Bit(Shr(x, n), i) == if i + n < 32 then Bit(x, i + n) else 0
  {
    ShrBit(x, n, i);
    if i + n >= 32 {
      PowersOfTwo();
      NoHighBit(x, 32, i + n);
    }
  }

  lemma LeftPart(x: u32, n: nat, i: nat)
    requires 0 < n < 32 && i < 32
    ensures Bit((x * Pow2(32 - n)) % U32_RANGE, i) == if i + n < 32 then 0 else Bit(x, i + n - 32)
  {
    WordBit(x * Pow2(32 - n), i);
    LeftBit(x, 32 - n, i);
  }

  // Section 3.2: a rotation to the right by n moves the bit n places above i, around the word, to i.
  lemma RotateBit(x: u32, n: nat, i: nat)
    requires 0 < n < 32 && i < 32
    ensures Bit(Rotr(x, n), i) == Bit(x, Around(i, n))
  {
    OrBit(Shr(x, n), (x * Pow2(32 - n)) % U32_RANGE, 32, i);
    RightPart(x, n, i);
    LeftPart(x, n, i);
    BitIsBit(x, Around(i, n));
  }

  lemma {:induction false} BitIsBit(x: nat, i: nat)
    ensures Bit(x, i) < 2
    decreases i
  {
    if i > 0 {
      BitIsBit(x / 2, i - 1);
    }
  }

  // ---------------------------------------------------------------- the logical functions

  lemma ChooseBit(x: u32, y: u32, z: u32, i: nat)
    requires i < 32
    ensures Bit(Ch(x, y, z), i) == if Bit(x, i) == 1 then Bit(y, i) else Bit(z, i)
  {
    PowersOfTwo();
    XorBit(And(x, y), And(Not(x), z), 32, i);
    AndBit(x, y, 32, i);
    AndBit(Not(x), z, 32, i);
    NotBit(x, 32, i);
    BitIsBit(x, i);
    BitIsBit(y, i);
    BitIsBit(z, i);
  }

  lemma MajorityBit(x: u32, y: u32, z: u32, i: nat)
    requires i < 32
    ensures Bit(Maj(x, y, z), i) == if Bit(x, i) + Bit(y, i) + Bit(z, i) >= 2 then 1 else 0
  {
    XorBit(Xor(And(x, y), And(x, z)), And(y, z), 32, i);
    XorBit(And(x, y), And(x, z), 32, i);
    AndBit(x, y, 32, i);
    AndBit(x, z, 32, i);
    AndBit(y, z, 32, i);
    BitIsBit(x, i);
    BitIsBit(y, i);
    BitIsBit(z, i);
  }

  // The parity of three bits of x.
  function Parity(x: nat, i: nat, j: nat, k: nat): nat { (Bit(x, i) + Bit(x, j) + Bit(x, k)) % 2 }

  lemma ThreeBits(p: u32, q: u32, r: u32, i: nat)
    requires i < 32
    ensures Bit(Xor(Xor(p, q), r), i) == (Bit(p, i) + Bit(q, i) + Bit(r, i)) % 2
  {
    XorBit(p, q, 32, i);
    XorBit(Xor(p, q), r, 32, i);
  }

  lemma RotationsBit(x: u32, a: nat, b: nat, c: nat, i: nat)
    requires 0 < a < 32 && 0 < b < 32 && 0 < c < 32 && i < 32
    ensures Bit(Xor(Xor(Rotr(x, a), Rotr(x, b)), Rotr(x, c)), i) == Parity(x, Around(i, a), Around(i, b), Around(i, c))
  {
    ThreeBits(Rotr(x, a), Rotr(x, b), Rotr(x, c), i);
    RotateBit(x, a, i);
    RotateBit(x, b, i);
    RotateBit(x, c, i);
  }

  // Equations 4.4 and 4.5.
  lemma BigSigmaBits(x: u32, i: nat)
    requires i < 32
    ensures Bit(BigSigma0(x), i) == Parity(x, Around(i, 2), Around(i, 13), Around(i, 22))
    ensures Bit(BigSigma1(x), i) == Parity(x, Around(i, 6), Around(i, 11), Around(i, 25))
  {
    RotationsBit(x, 2, 13, 22, i);
    RotationsBit(x, 6, 11, 25, i);
  }

  lemma ShiftedBit(x: u32, a: nat, b: nat, c: nat, i: nat)
    requires 0 < a < 32 && 0 < b < 32 && i < 32
    ensures Bit(Xor(Xor(Rotr(x, a), Rotr(x, b)), Shr(x, c)), i) == Parity(x, Around(i, a), Around(i, b), i + c)
  {
    ThreeBits(Rotr(x, a), Rotr(x, b), Shr(x, c), i);
    RotateBit(x, a, i);
    RotateBit(x, b, i);
    ShrBit(x, c, i);
  }

  // Equations 4.6 and 4.7; a bit past the word is zero.
  lemma SmallSigmaBits(x: u32, i: nat)
    requires i < 32
    ensures Bit(SmallSigma0(x), i) == Parity(x, Around(i, 7), Around(i, 18), i + 3)
    ensures Bit(SmallSigma1(x), i) == Parity(x, Around(i, 17), Around(i, 19), i + 10)
  {
    ShiftedBit(x, 7, 18, 3, i);
    ShiftedBit(x, 17, 19, 10, i);
  }

  // ---------------------------------------------------------------- bytes and words

  // The number written by these bytes, the most significant first (section 3.1).
  function Number(b: seq<byte>): nat {
    if b == [] then 0 else 256 * Number(b[..|b| - 1]) + b[|b| - 1]
  }

  lemma FourBytes(w: byte, x: byte, y: byte, z: byte)
    ensures Number([w, x, y, z]) == 0x100_0000 * w + 0x1_0000 * x + 0x100 * y + z
  {
    assert [w, x, y, z][..3] == [w, x, y] && [w, x, y][..2] == [w, x] && [w, x][..1] == [w] && [w][..0] == [];
    assert Number([w]) == 256 * Number([]) + w;
    assert Number([w, x]) == 256 * Number([w]) + x;
    assert Number([w, x, y]) == 256 * Number([w, x]) + y;
  }

  lemma WordIsNumber(b: seq<byte>, i: nat)
    requires 4 * i + 4 <= |b|
    ensures Word(b, i) == Number(b[4 * i..4 * i + 4])
  {
    FourBytes(b[4 * i], b[4 * i + 1], b[4 * i + 2], b[4 * i + 3]);
    assert b[4 * i..4 * i + 4] == [b[4 * i], b[4 * i + 1], b[4 * i + 2], b[4 * i + 3]];
  }

  lemma WordBytesAreNumber(x: u32)
    ensures Number(WordBytes(x)) == x && |WordBytes(x)| == 4
  {
    FourBytes(LowByte(x / 0x100_0000), LowByte(x / 0x1_0000), LowByte(x / 0x100), LowByte(x));
  }

  lemma Slices(a: seq<byte>, b: seq<byte>, c: seq<byte>, d: seq<byte>)
    requires |a| == |b| == |c| == |d| == 4
    ensures var o := a + b + c + d; o[..4] == a && o[4..8] == b && o[8..12] == c && o[12..] == d
  {
  }

  // The digest is the eight words of the last hash value, in order.
  lemma OutputWords(v: Vars)
    ensures |Output(v)| == 32
    ensures var o := Output(v)[..16];
            Number(o[..4]) == v.a && Number(o[4..8]) == v.b && Number(o[8..12]) == v.c && Number(o[12..]) == v.d
    ensures var o := Output(v)[16..];
            Number(o[..4]) == v.e && Number(o[4..8]) == v.f && Number(o[8..12]) == v.g && Number(o[12..]) == v.h
  {
    var x := WordBytes(v.a) + WordBytes(v.b) + WordBytes(v.c) + WordBytes(v.d);
    var y := WordBytes(v.e) + WordBytes(v.f) + WordBytes(v.g) + WordBytes(v.h);
    assert Output(v) == x + y;
    Slices(WordBytes(v.a), WordBytes(v.b), WordBytes(v.c), WordBytes(v.d));
    Slices(WordBytes(v.e), WordBytes(v.f), WordBytes(v.g), WordBytes(v.h));
    WordBytesAreNumber(v.a);
    WordBytesAreNumber(v.b);
    WordBytesAreNumber(v.c);
    WordBytesAreNumber(v.d);
    WordBytesAreNumber(v.e);
    WordBytesAreNumber(v.f);
    WordBytesAreNumber(v.g);
    WordBytesAreNumber(v.h);
  }

  lemma {:induction false} FieldPrefix(bits: nat, k: nat)
    requires k <= 8 && Over(bits, 8) == 0
    ensures Number(LengthField(bits)[..k]) == Over(bits, 8 - k)
    decreases k
  {
    var f := LengthField(bits);
    if k > 0 {
      FieldPrefix(bits, k - 1);
      assert f[..k][..k - 1] == f[..k - 1];
      OverStep(bits, 8 - k);
    } else {
      assert f[..0] == [];
    }
  }

  lemma {:induction false} OverStep(v: nat, n: nat)
    ensures Over(v, n + 1) == Over(v, n) / 256
    decreases n
  {
    if n > 0 {
      OverStep(v / 256, n - 1);
    }
  }

  // Section 5.1.1: the length field is the number of bits, for every message the digest takes.
  lemma LengthIsNumber(bits: nat)
    requires bits < U64_RANGE
    ensures Number(LengthField(bits)) == bits
  {
    var half := bits / 0x100 / 0x100 / 0x100 / 0x100;
    assert half < U32_RANGE;
    assert half / 0x100 / 0x100 / 0x100 / 0x100 == 0;
    assert Over(bits, 8) == Over(half, 4) by {
      assert Over(bits, 8) == Over(bits / 0x100, 7) == Over(bits / 0x100 / 0x100, 6) == Over(bits / 0x100 / 0x100 / 0x100, 5);
    }
    assert Over(half, 4) == Over(half / 0x100, 3) == Over(half / 0x100 / 0x100, 2) == Over(half / 0x100 / 0x100 / 0x100, 1);
    FieldPrefix(bits, 8);
    assert LengthField(bits)[..8] == LengthField(bits);
  }

  // ---------------------------------------------------------------- the rounds as two sequences

  // One word in each of two sequences a round; numbers -4 to -1 are the values they start from.
  function A(v: Vars, block: seq<byte>, t: int): u32
    requires |block| == 64 && -4 <= t < 64
    decreases t + 4, 0
  {
    if t == -4 then v.d else if t == -3 then v.c else if t == -2 then v.b else if t == -1 then v.a
    else Add(T1(v, block, t), Add(BigSigma0(A(v, block, t - 1)), Maj(A(v, block, t - 1), A(v, block, t - 2), A(v, block, t - 3))))
  }

  function E(v: Vars, block: seq<byte>, t: int): u32
    requires |block| == 64 && -4 <= t < 64
    decreases t + 4, 0
  {
    if t == -4 then v.h else if t == -3 then v.g else if t == -2 then v.f else if t == -1 then v.e
    else Add(A(v, block, t - 4), T1(v, block, t))
  }

  function T1(v: Vars, block: seq<byte>, t: int): u32
    requires |block| == 64 && 0 <= t < 64
    decreases t + 3, 1
  {
    Add(Add(Add(Add(E(v, block, t - 4), BigSigma1(E(v, block, t - 1))),
                Ch(E(v, block, t - 1), E(v, block, t - 2), E(v, block, t - 3))), K[t]), W(block, t))
  }

  // Section 6.2.2: before each round the eight working variables are the last four words of either
  // sequence.
  lemma {:induction false} RoundsAreSequences(v: Vars, block: seq<byte>, t: nat)
    requires |block| == 64 && t <= 64
    ensures Rounds(v, block, t) == Vars(A(v, block, t - 1), A(v, block, t - 2), A(v, block, t - 3), A(v, block, t - 4),
                                        E(v, block, t - 1), E(v, block, t - 2), E(v, block, t - 3), E(v, block, t - 4))
    decreases t
  {
    if t > 0 {
      RoundsAreSequences(v, block, t - 1);
    }
  }
}
