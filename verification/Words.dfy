// 32-bit words as numbers, with the bitwise operations defined bit by bit.
module Words {
  import opened Common

  function Pow2(n: nat): (p: nat)
    ensures p > 0
  {
    if n == 0 then 1 else 2 * Pow2(n - 1)
  }

  lemma PowersOfTwo()
    ensures Pow2(8) == 0x100 && Pow2(16) == 0x1_0000 && Pow2(24) == 0x100_0000 && Pow2(32) == U32_RANGE
  {
  }

  // Bits combined below position n.
  function AndBits(x: nat, y: nat, n: nat): nat {
    if n == 0 then 0 else (x % 2) * (y % 2) + 2 * AndBits(x / 2, y / 2, n - 1)
  }

  function OrBits(x: nat, y: nat, n: nat): nat {
    if n == 0 then 0 else (if x % 2 == 1 || y % 2 == 1 then 1 else 0) + 2 * OrBits(x / 2, y / 2, n - 1)
  }

  function XorBits(x: nat, y: nat, n: nat): nat {
    if n == 0 then 0 else (if x % 2 == y % 2 then 0 else 1) + 2 * XorBits(x / 2, y / 2, n - 1)
  }

  lemma {:induction false} BitsBound(x: nat, y: nat, n: nat)
    ensures AndBits(x, y, n) < Pow2(n) && OrBits(x, y, n) < Pow2(n) && XorBits(x, y, n) < Pow2(n)
  {
    if n > 0 {
      BitsBound(x / 2, y / 2, n - 1);
      assert (x % 2) * (y % 2) <= 1;
    }
  }

  function And(x: u32, y: u32): u32 { BitsBound(x, y, 32); PowersOfTwo(); AndBits(x, y, 32) }
  function Or(x: u32, y: u32): u32 { BitsBound(x, y, 32); PowersOfTwo(); OrBits(x, y, 32) }
  function Xor(x: u32, y: u32): u32 { BitsBound(x, y, 32); PowersOfTwo(); XorBits(x, y, 32) }
  function Not(x: u32): u32 { U32_RANGE - 1 - x }
  function Add(x: u32, y: u32): u32 { (x + y) % U32_RANGE }

  function Shr(x: nat, n: nat): (r: nat)
    ensures r <= x
    decreases n
  {
    if n == 0 then x else Shr(x / 2, n - 1)
  }

  function Rotr(x: u32, n: nat): u32
    requires n <= 32
  {
    Or(Shr(x, n), (x * Pow2(32 - n)) % U32_RANGE)
  }

  lemma {:induction false} OrZero(b: nat, n: nat)
    requires b < Pow2(n)
    ensures OrBits(0, b, n) == b && OrBits(b, 0, n) == b
  {
    if n > 0 {
      OrZero(b / 2, n - 1);
    }
  }

  lemma DoublePow2(a: nat, k: nat)
    requires k > 0
    ensures a * Pow2(k) == 2 * (a * Pow2(k - 1))
  {
  }

  // Disjoint bits: OR is addition.
  lemma {:induction false} OrDisjoint(a: nat, b: nat, k: nat, n: nat)
    requires k <= n && b < Pow2(k) && a * Pow2(k) < Pow2(n)
    ensures OrBits(a * Pow2(k), b, n) == a * Pow2(k) + b
    decreases k
  {
    if k == 0 {
      assert b == 0 && a * Pow2(0) == a;
      OrZero(a, n);
    } else {
      var x := a * Pow2(k - 1);
      DoublePow2(a, k);
      OrDisjoint(a, b / 2, k - 1, n - 1);
      assert (2 * x) % 2 == 0 && (2 * x) / 2 == x;
    }
  }
}
