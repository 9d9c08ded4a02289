// The CRC of a PNG chunk (ISO/IEC 15948, section 5.5 and Annex D): the byte-at-a-time table walk
// of Codec.cpp against the shift register that takes the message one bit at a time.
module Crc {
  import opened Common
  import opened Words

  const POLYNOMIAL: u32 := 0xedb88320
  const ONES: u32 := 0xffffffff

  // ---------------------------------------------------------------- the standard

  // The register after one message bit.
  function TakeBit(c: u32, bit: nat): u32
    requires bit < 2
  {
    Xor(c / 2, if c % 2 == bit then 0 else POLYNOMIAL)
  }

  // The register after the low n bits of v, least significant bit first.
  function TakeBits(c: u32, v: nat, n: nat): u32
    decreases n
  {
    if n == 0 then c else TakeBits(TakeBit(c, v % 2), v / 2, n - 1)
  }

  function TakeBytes(c: u32, message: seq<byte>): u32
    decreases |message|
  {
    if message == [] then c else TakeBytes(TakeBits(c, message[0], 8), message[1..])
  }

  function Checksum(message: seq<byte>): u32 {
    Xor(TakeBytes(ONES, message), ONES)
  }

  // ---------------------------------------------------------------- exclusive or

  lemma {:induction false} XorWidth(x: nat, y: nat, n: nat, m: nat)
    requires n <= m && x < Pow2(n) && y < Pow2(n)
    ensures XorBits(x, y, m) == XorBits(x, y, n)
  {
    if n > 0 {
      XorWidth(x / 2, y / 2, n - 1, m - 1);
    } else if m > 0 {
      XorWidth(0, 0, 0, m - 1);
    }
  }

  lemma {:induction false} XorZero(x: nat, n: nat)
    requires x < Pow2(n)
    ensures XorBits(x, 0, n) == x && XorBits(0, x, n) == x
  {
    if n > 0 {
      XorZero(x / 2, n - 1);
    }
  }

  lemma {:induction false} XorSwap(x: nat, y: nat, n: nat)
    ensures XorBits(x, y, n) == XorBits(y, x, n)
  {
    if n > 0 {
      XorSwap(x / 2, y / 2, n - 1);
    }
  }

  lemma {:induction false} XorSelf(x: nat, n: nat)
    ensures XorBits(x, x, n) == 0
  {
    if n > 0 {
      XorSelf(x / 2, n - 1);
    }
  }

  lemma {:induction false} XorAssociates(x: nat, y: nat, z: nat, n: nat)
    ensures XorBits(XorBits(x, y, n), z, n) == XorBits(x, XorBits(y, z, n), n)
  {
    if n > 0 {
      XorAssociates(x / 2, y / 2, z / 2, n - 1);
      XorParts(x, y, n);
      XorParts(y, z, n);
    }
  }

  lemma XorParts(x: nat, y: nat, n: nat)
    requires n > 0
    ensures XorBits(x, y, n) % 2 == (if x % 2 == y % 2 then 0 else 1)
    ensures XorBits(x, y, n) / 2 == XorBits(x / 2, y / 2, n - 1)
  {
  }

  // (a ^ p) ^ (b ^ q) == (a ^ b) ^ (p ^ q)
  lemma XorRegroup(a: u32, p: u32, b: u32, q: u32)
    ensures Xor(Xor(a, p), Xor(b, q)) == Xor(Xor(a, b), Xor(p, q))
  {
    XorAssociates(a, p, Xor(b, q), 32);
    XorAssociates(p, b, q, 32);
    XorSwap(p, b, 32);
    XorAssociates(b, p, q, 32);
    XorAssociates(a, b, Xor(p, q), 32);
  }

  // Halving distributes over exclusive or.
  lemma XorHalves(x: u32, y: u32)
    ensures Xor(x, y) / 2 == Xor(x / 2, y / 2)
    ensures Xor(x, y) % 2 == (if x % 2 == y % 2 then 0 else 1)
  {
    XorParts(x, y, 32);
    PowersOfTwo();
    assert Pow2(32) == 2 * Pow2(31);
    XorWidth(x / 2, y / 2, 31, 32);
  }

  // ---------------------------------------------------------------- the register step

  // The step the table is built from: shift, and fold the polynomial in when a one falls out.
  function Step(c: u32): u32 { TakeBit(c, 0) }

  function Steps(c: u32, n: nat): u32
    decreases n
  {
    if n == 0 then c else Steps(Step(c), n - 1)
  }

  lemma StepIsLinear(x: u32, y: u32)
    ensures Step(Xor(x, y)) == Xor(Step(x), Step(y))
  {
    var p: u32 := if x % 2 == 0 then 0 else POLYNOMIAL;
    var q: u32 := if y % 2 == 0 then 0 else POLYNOMIAL;
    XorHalves(x, y);
    XorRegroup(x / 2, p, y / 2, q);
    PowersOfTwo();
    XorZero(POLYNOMIAL, 32);
    XorZero(0, 32);
    XorSelf(POLYNOMIAL, 32);
  }

  lemma {:induction false} StepsAreLinear(x: u32, y: u32, n: nat)
    ensures Steps(Xor(x, y), n) == Xor(Steps(x, n), Steps(y, n))
    decreases n
  {
    if n > 0 {
      StepIsLinear(x, y);
      StepsAreLinear(Step(x), Step(y), n - 1);
    }
  }

  // Zero bits fall out of the low end one by one.
  lemma {:induction false} StepsShift(high: nat, n: nat)
    requires high * Pow2(n) < U32_RANGE
    ensures Steps(high * Pow2(n), n) == high
    decreases n
  {
    if n > 0 {
      var x := high * Pow2(n - 1);
      DoublePow2(high, n);
      PowersOfTwo();
      XorZero(x, 32);
      assert Step(2 * x) == x;
      StepsShift(high, n - 1);
    }
  }

  lemma {:induction false} XorDisjoint(a: nat, b: nat, k: nat, n: nat)
    requires k <= n && b < Pow2(k) && a * Pow2(k) < Pow2(n)
    ensures XorBits(a * Pow2(k), b, n) == a * Pow2(k) + b
    decreases k
  {
    if k == 0 {
      assert a * Pow2(0) == a;
      XorZero(a, n);
    } else {
      var x := a * Pow2(k - 1);
      DoublePow2(a, k);
      XorDisjoint(a, b / 2, k - 1, n - 1);
      assert (2 * x) % 2 == 0 && (2 * x) / 2 == x;
    }
  }

  // Feeding a value's bits is folding the value in first and then stepping.
  lemma {:induction false} FeedingFolds(c: u32, v: u32, n: nat)
    requires v < Pow2(n)
    ensures TakeBits(c, v, n) == Steps(Xor(c, v), n)
    decreases n
  {
    PowersOfTwo();
    if n == 0 {
      XorZero(c, 32);
    } else {
      var fold: u32 := if c % 2 == v % 2 then 0 else POLYNOMIAL;
      XorHalves(c, v);
      assert Step(Xor(c, v)) == Xor(Xor(c / 2, v / 2), fold);
      XorAssociates(c / 2, v / 2, fold, 32);
      XorSwap(v / 2, fold, 32);
      XorAssociates(c / 2, fold, v / 2, 32);
      assert TakeBit(c, v % 2) == Xor(c / 2, fold);
      FeedingFolds(TakeBit(c, v % 2), v / 2, n - 1);
    }
  }

  // Eight steps are one shift by a byte and one table entry.
  lemma EightSteps(x: u32)
    ensures Steps(x, 8) == Xor(x / 256, Steps(x % 256, 8))
  {
    PowersOfTwo();
    var high := x / 256;
    assert x == high * Pow2(8) + x % 256;
    XorDisjoint(high, x % 256, 8, 32);
    StepsAreLinear(high * Pow2(8), x % 256, 8);
    StepsShift(high, 8);
  }

  // The low k bits of x; Shr is x without them.
  function Low(x: nat, k: nat): nat {
    if k == 0 then 0 else x % 2 + 2 * Low(x / 2, k - 1)
  }

  lemma TwoBits(x: nat)
    ensures Low(x, 2) == x % 4 && Shr(x, 2) == x / 4
  {
    assert Low(x, 2) == x % 2 + 2 * Low(x / 2, 1);
    assert Low(x / 2, 1) == x / 2 % 2 + 2 * Low(x / 2 / 2, 0);
    assert Shr(x, 2) == Shr(x / 2, 1) == Shr(x / 2 / 2, 0);
  }

  lemma {:induction false} LowAndShrSplit(x: nat, j: nat, k: nat)
    ensures Shr(x, j + k) == Shr(Shr(x, j), k) && Low(x, j + k) == Low(x, j) + Pow2(j) * Low(Shr(x, j), k)
    decreases j
  {
    if j > 0 {
      LowAndShrSplit(x / 2, j - 1, k);
      var l := Low(Shr(x, j), k);
      assert Pow2(j) * l == 2 * (Pow2(j - 1) * l);
    }
  }

  lemma FourBits(x: nat)
    ensures Low(x, 4) == x % 16 && Shr(x, 4) == x / 16
  {
    LowAndShrSplit(x, 2, 2);
    TwoBits(x);
    TwoBits(x / 4);
    assert Pow2(2) == 4 by { assert Pow2(1) == 2; }
  }

  lemma Nibbles(x: nat)
    ensures x / 16 / 16 == x / 256 && x % 16 + 16 * (x / 16 % 16) == x % 256
  {
  }

  lemma Pow2Of4()
    ensures Pow2(4) == 16
  {
  }

  lemma LowAndShr(x: nat)
    ensures Low(x, 8) == x % 256 && Shr(x, 8) == x / 256
  {
    LowAndShrSplit(x, 4, 4);
    FourBits(x);
    FourBits(x / 16);
    Pow2Of4();
    Nibbles(x);
  }

  lemma {:induction false} MaskKeepsLow(x: nat, k: nat, n: nat)
    requires k <= n
    ensures AndBits(x, Pow2(k) - 1, n) == Low(x, k)
    decreases n
  {
    if k == 0 {
      AndNothing(x, n);
    } else {
      MaskKeepsLow(x / 2, k - 1, n - 1);
      assert (Pow2(k) - 1) % 2 == 1 && (Pow2(k) - 1) / 2 == Pow2(k - 1) - 1;
    }
  }

  lemma MaskIsRemainder(x: u32)
    ensures And(x, 255) == x % 256
  {
    PowersOfTwo();
    MaskKeepsLow(x, 8, 32);
    LowAndShr(x);
  }

  lemma {:induction false} AndNothing(x: nat, n: nat)
    ensures AndBits(x, 0, n) == 0
    decreases n
  {
    if n > 0 {
      AndNothing(x / 2, n - 1);
    }
  }

  // ---------------------------------------------------------------- the implementation

  predicate IsTable(table: seq<u32>) {
    |table| == 256 && forall i :: 0 <= i < 256 ==> table[i] == Steps(i, 8)
  }

  // One iteration of the byte loop.
  function Lookup(table: seq<u32>, c: u32, b: byte): u32
    requires IsTable(table)
  {
    PowersOfTwo();
    MaskIsRemainder(Xor(c, b));
    Xor(Shr(c, 8), table[And(Xor(c, b), 255)])
  }

  lemma {:induction false} XorShifts(x: u32, y: u32, k: nat)
    ensures Shr(Xor(x, y), k) == Xor(Shr(x, k), Shr(y, k))
    decreases k
  {
    if k > 0 {
      XorHalves(x, y);
      XorShifts(x / 2, y / 2, k - 1);
    }
  }

  lemma ShiftedAway(c: u32, b: u32, k: nat)
    requires Shr(b, k) == 0
    ensures Shr(Xor(c, b), k) == Shr(c, k)
  {
    PowersOfTwo();
    XorShifts(c, b, k);
    XorZero(Shr(c, k), 32);
  }

  // A byte folded into a word leaves the word's upper three bytes.
  lemma HighBytes(c: u32, b: byte)
    ensures Xor(c, b) / 256 == c / 256
  {
    var x := Xor(c, b);
    LowAndShr(b);
    ShiftedAway(c, b, 8);
    LowAndShr(c);
    LowAndShr(x);
  }

  lemma LookupTakesByte(table: seq<u32>, c: u32, b: byte)
    requires IsTable(table)
    ensures Lookup(table, c, b) == TakeBits(c, b, 8)
  {
    PowersOfTwo();
    var x := Xor(c, b);
    FeedingFolds(c, b, 8);
    EightSteps(x);
    MaskIsRemainder(x);
    HighBytes(c, b);
    LowAndShr(c);
  }

  lemma {:induction false} TakeBytesSplit(c: u32, a: seq<byte>, b: seq<byte>)
    ensures TakeBytes(c, a + b) == TakeBytes(TakeBytes(c, a), b)
    decreases |a|
  {
    if a == [] {
      assert a + b == b;
    } else {
      assert (a + b)[1..] == a[1..] + b;
      TakeBytesSplit(TakeBits(c, a[0], 8), a[1..], b);
    }
  }

  lemma TakeNextByte(table: seq<u32>, bytes: seq<byte>, from: nat, i: nat)
    requires IsTable(table) && from <= i < |bytes|
    ensures TakeBytes(ONES, bytes[from..i + 1]) == Lookup(table, TakeBytes(ONES, bytes[from..i]), bytes[i])
  {
    var c := TakeBytes(ONES, bytes[from..i]);
    assert bytes[from..i + 1] == bytes[from..i] + [bytes[i]];
    TakeBytesSplit(ONES, bytes[from..i], [bytes[i]]);
    assert TakeBytes(c, [bytes[i]]) == TakeBytes(TakeBits(c, bytes[i], 8), []);
    LookupTakesByte(table, c, bytes[i]);
  }

  method MakeTable() returns (table: array<u32>)
    ensures fresh(table) && IsTable(table[..])
  {
    table := new u32[256];
    var i := 0;
    while i < 256
      invariant i <= 256 && forall k :: 0 <= k < i ==> table[k] == Steps(k, 8)
    {
      var c: u32 := i;
      var bit := 0;
      while bit < 8
        invariant bit <= 8 && Steps(c, 8 - bit) == Steps(i, 8)
      {
        c := Xor(c / 2, if c % 2 == 1 then POLYNOMIAL else 0);
        bit := bit + 1;
      }
      table[i] := c;
      i := i + 1;
    }
  }

  // The checksum of bytes[from..to], by table.
  method Compute(table: array<u32>, bytes: seq<byte>, from: nat, to: nat) returns (crc: u32)
    requires IsTable(table[..]) && from <= to <= |bytes|
    ensures crc == Checksum(bytes[from..to])
  {
    var c := ONES;
    var i := from;
    while i < to
      invariant from <= i <= to && c == TakeBytes(ONES, bytes[from..i])
    {
      TakeNextByte(table[..], bytes, from, i);
      c := Lookup(table[..], c, bytes[i]);
      i := i + 1;
    }
    crc := Xor(c, ONES);
  }
}
