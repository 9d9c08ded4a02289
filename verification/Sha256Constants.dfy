// Where the constants of SHA-256 come from (FIPS 180-4, sections 4.2.2 and 5.3.3): the first 32 bits
// of the fractional parts of roots of the first primes.
module Sha256Constants {
  import opened Common
  import opened Sha256

  // ---------------------------------------------------------------- the primes

  predicate Product(a: nat, b: nat, n: nat) { a * b == n }

  // A prime is no product of two numbers past one.
  ghost predicate IsPrime(n: nat) { n >= 2 && !exists a, b :: a >= 2 && b >= 2 && Product(a, b, n) }

  // The first primes: ascending, and all primes up to the last of them.
  ghost predicate FirstPrimes(ps: seq<nat>) {
    && (forall i, j :: 0 <= i < j < |ps| ==> ps[i] < ps[j])
    && forall n: nat :: n in ps <==> IsPrime(n) && |ps| > 0 && n <= ps[|ps| - 1]
  }

  const PRIMES0: seq<nat> := [2, 3, 5, 7, 11, 13, 17, 19]
  const PRIMES1: seq<nat> := [23, 29, 31, 37, 41, 43, 47, 53]
  const PRIMES2: seq<nat> := [59, 61, 67, 71, 73, 79, 83, 89]
  const PRIMES3: seq<nat> := [97, 101, 103, 107, 109, 113, 127, 131]
  const PRIMES4: seq<nat> := [137, 139, 149, 151, 157, 163, 167, 173]
  const PRIMES5: seq<nat> := [179, 181, 191, 193, 197, 199, 211, 223]
  const PRIMES6: seq<nat> := [227, 229, 233, 239, 241, 251, 257, 263]
  const PRIMES7: seq<nat> := [269, 271, 277, 281, 283, 293, 307, 311]

  const PRIMES: seq<nat> := PRIMES0 + PRIMES1 + PRIMES2 + PRIMES3 + PRIMES4 + PRIMES5 + PRIMES6 + PRIMES7

  // Not divisible by any prime up to 17.
  predicate Sifted(n: nat) {
    n % 2 != 0 && n % 3 != 0 && n % 5 != 0 && n % 7 != 0 && n % 11 != 0 && n % 13 != 0 && n % 17 != 0
  }

  lemma Multiples(x: nat)
    ensures !Sifted(2 * x) && !Sifted(3 * x) && !Sifted(5 * x) && !Sifted(7 * x)
    ensures !Sifted(11 * x) && !Sifted(13 * x) && !Sifted(17 * x)
  {
    assert (2 * x) % 2 == 0 && (3 * x) % 3 == 0 && (5 * x) % 5 == 0 && (7 * x) % 7 == 0;
    assert (11 * x) % 11 == 0 && (13 * x) % 13 == 0 && (17 * x) % 17 == 0;
  }

  lemma Associates(p: nat, c: nat, b: nat)
    ensures p * c * b == p * (c * b)
  {
  }

  lemma SmallFactor(a: nat, b: nat)
    requires 2 <= a <= 17
    ensures !Sifted(a * b)
  {
    var c := if a % 2 == 0 then a / 2 else if a % 3 == 0 then a / 3 else 1;
    var p := a / c;
    assert p in {2, 3, 5, 7, 11, 13, 17} && a == p * c;
    Associates(p, c, b);
    Multiples(c * b);
  }

  // Two factors past 17 are too many.
  lemma OneIsSmall(a: nat, b: nat)
    requires a > 17 && b > 17
    ensures a * b >= 324
  {
    assert a * b >= 18 * b;
  }

  lemma SiftedIsPrime(n: nat)
    requires 2 <= n < 324 && Sifted(n)
    ensures IsPrime(n)
  {
    forall a, b | a >= 2 && b >= 2 ensures !Product(a, b, n) {
      if a * b == n {
        if a <= 17 {
          SmallFactor(a, b);
        } else if b <= 17 {
          assert b * a == n;
          SmallFactor(b, a);
        } else {
          OneIsSmall(a, b);
        }
      }
    }
  }

  lemma NotSifted(n: nat)
    requires n > 17 && !Sifted(n)
    ensures !IsPrime(n)
  {
    var p := if n % 2 == 0 then 2 else if n % 3 == 0 then 3 else if n % 5 == 0 then 5 else if n % 7 == 0 then 7
             else if n % 11 == 0 then 11 else if n % 13 == 0 then 13 else 17;
    assert Product(p, n / p, n);
  }

  lemma SmallPrimes(n: nat)
    requires n <= 17
    ensures IsPrime(n) <==> n in {2, 3, 5, 7, 11, 13, 17}
  {
    if n in {2, 3, 5, 7, 11, 13, 17} {
      forall a, b | a >= 2 && b >= 2 ensures !Product(a, b, n) {
        NoSmallProduct(n, a, b);
      }
    } else if n >= 2 {
      assert Product(2, n / 2, n) || Product(3, n / 3, n);
    }
  }

  lemma NoSmallProduct(n: nat, a: nat, b: nat)
    requires n in {2, 3, 5, 7, 11, 13, 17} && a >= 2 && b >= 2
    ensures a * b != n
  {
    if a <= 4 {
      assert a == 2 || a == 3 || a == 4;
    } else if b <= 4 {
      assert b == 2 || b == 3 || b == 4;
    } else {
      assert a * b >= 5 * b;
    }
  }

  lemma Wheel0(n: nat)
    requires 18 <= n < 30 && Sifted(n)
    ensures n in [19, 23, 29]
  {
  }

  lemma Wheel1(n: nat)
    requires 30 <= n < 60 && Sifted(n)
    ensures n in [31, 37, 41, 43, 47, 53, 59]
  {
  }

  lemma Wheel2(n: nat)
    requires 60 <= n < 90 && Sifted(n)
    ensures n in [61, 67, 71, 73, 79, 83, 89]
  {
  }

  lemma Wheel3(n: nat)
    requires 90 <= n < 120 && Sifted(n)
    ensures n in [97, 101, 103, 107, 109, 113]
  {
  }

  lemma Wheel4(n: nat)
    requires 120 <= n < 150 && Sifted(n)
    ensures n in [127, 131, 137, 139, 149]
  {
  }

  lemma Wheel5(n: nat)
    requires 150 <= n < 180 && Sifted(n)
    ensures n in [151, 157, 163, 167, 173, 179]
  {
  }

  lemma Wheel6(n: nat)
    requires 180 <= n < 210 && Sifted(n)
    ensures n in [181, 191, 193, 197, 199]
  {
  }

  lemma Wheel7(n: nat)
    requires 210 <= n < 240 && Sifted(n)
    ensures n in [211, 223, 227, 229, 233, 239]
  {
  }

  lemma Wheel8(n: nat)
    requires 240 <= n < 270 && Sifted(n)
    ensures n in [241, 251, 257, 263, 269]
  {
  }

  lemma Wheel9(n: nat)
    requires 270 <= n < 300 && Sifted(n)
    ensures n in [271, 277, 281, 283, 293]
  {
  }

  lemma Wheel10(n: nat)
    requires 300 <= n < 312 && Sifted(n)
    ensures n in [307, 311]
  {
  }

  // What passes the sieve is in the list.
  lemma SiftedIsListed(n: nat)
    requires 17 < n <= 311 && Sifted(n)
    ensures n in PRIMES
  {
    if n < 30 {
      Wheel0(n);
    } else if n < 60 {
      Wheel1(n);
    } else if n < 90 {
      Wheel2(n);
    } else if n < 120 {
      Wheel3(n);
    } else if n < 150 {
      Wheel4(n);
    } else if n < 180 {
      Wheel5(n);
    } else if n < 210 {
      Wheel6(n);
    } else if n < 240 {
      Wheel7(n);
    } else if n < 270 {
      Wheel8(n);
    } else if n < 300 {
      Wheel9(n);
    } else if n < 330 {
      Wheel10(n);
    }
  }

  lemma RowPrimes0(n: nat)
    requires n in PRIMES0
    ensures IsPrime(n) && 2 <= n <= 19
  {
    if n == 19 {
      SiftedIsPrime(n);
    } else {
      SmallPrimes(n);
    }
  }

  lemma RowPrimes1(n: nat)
    requires n in PRIMES1
    ensures IsPrime(n) && 23 <= n <= 53
  {
    SiftedIsPrime(n);
  }

  lemma RowPrimes2(n: nat)
    requires n in PRIMES2
    ensures IsPrime(n) && 59 <= n <= 89
  {
    SiftedIsPrime(n);
  }

  lemma RowPrimes3(n: nat)
    requires n in PRIMES3
    ensures IsPrime(n) && 97 <= n <= 131
  {
    SiftedIsPrime(n);
  }

  lemma RowPrimes4(n: nat)
    requires n in PRIMES4
    ensures IsPrime(n) && 137 <= n <= 173
  {
    SiftedIsPrime(n);
  }

  lemma RowPrimes5(n: nat)
    requires n in PRIMES5
    ensures IsPrime(n) && 179 <= n <= 223
  {
    SiftedIsPrime(n);
  }

  lemma RowPrimes6(n: nat)
    requires n in PRIMES6
    ensures IsPrime(n) && 227 <= n <= 263
  {
    SiftedIsPrime(n);
  }

  lemma RowPrimes7(n: nat)
    requires n in PRIMES7
    ensures IsPrime(n) && 269 <= n <= 311
  {
    SiftedIsPrime(n);
  }

  lemma Listed(n: nat)
    ensures n in PRIMES <==>
            (n in PRIMES0 || n in PRIMES1 || n in PRIMES2 || n in PRIMES3 || n in PRIMES4 || n in PRIMES5 || n in PRIMES6 || n in PRIMES7)
  {
  }

  lemma PrimesAreAll(n: nat)
    ensures n in PRIMES <==> IsPrime(n) && n <= 311
  {
    Listed(n);
    if n in PRIMES {
      if n in PRIMES0 {
        RowPrimes0(n);
      } else if n in PRIMES1 {
        RowPrimes1(n);
      } else if n in PRIMES2 {
        RowPrimes2(n);
      } else if n in PRIMES3 {
        RowPrimes3(n);
      } else if n in PRIMES4 {
        RowPrimes4(n);
      } else if n in PRIMES5 {
        RowPrimes5(n);
      } else if n in PRIMES6 {
        RowPrimes6(n);
      } else {
        RowPrimes7(n);
      }
    } else if n <= 17 {
      SmallPrimes(n);
    } else if n <= 311 {
      if Sifted(n) {
        SiftedIsListed(n);
      } else {
        NotSifted(n);
      }
    }
  }

  // Two ascending lists, the second above the first.
  lemma AscendConcat(a: seq<nat>, b: seq<nat>)
    requires forall i, j :: 0 <= i < j < |a| ==> a[i] < a[j]
    requires forall i, j :: 0 <= i < j < |b| ==> b[i] < b[j]
    requires a != [] && b != [] && a[|a| - 1] < b[0]
    ensures forall i, j :: 0 <= i < j < |a + b| ==> (a + b)[i] < (a + b)[j]
  {
  }

  lemma PrimesAscend()
    ensures forall i, j :: 0 <= i < j < |PRIMES| ==> PRIMES[i] < PRIMES[j]
    ensures |PRIMES| == 64 && PRIMES[63] == 311
  {
    AscendConcat(PRIMES0, PRIMES1);
    AscendConcat(PRIMES0 + PRIMES1, PRIMES2);
    AscendConcat(PRIMES0 + PRIMES1 + PRIMES2, PRIMES3);
    AscendConcat(PRIMES0 + PRIMES1 + PRIMES2 + PRIMES3, PRIMES4);
    AscendConcat(PRIMES0 + PRIMES1 + PRIMES2 + PRIMES3 + PRIMES4, PRIMES5);
    AscendConcat(PRIMES0 + PRIMES1 + PRIMES2 + PRIMES3 + PRIMES4 + PRIMES5, PRIMES6);
    AscendConcat(PRIMES0 + PRIMES1 + PRIMES2 + PRIMES3 + PRIMES4 + PRIMES5 + PRIMES6, PRIMES7);
  }

  lemma PrimesAreFirst()
    ensures FirstPrimes(PRIMES)
  {
    PrimesAscend();
    forall n: nat ensures n in PRIMES <==> IsPrime(n) && n <= 311 {
      PrimesAreAll(n);
    }
  }

  // ---------------------------------------------------------------- the roots

  function Cube(x: nat): nat { x * x * x }

  // k is the first 32 bits of the fractional part of the cube root of p, whose whole part is q.
  predicate IsCubeRoot(q: nat, k: u32, p: nat) {
    Cube(q * 0x1_0000_0000 + k) <= p * 0x1_0000_0000_0000_0000_0000_0000 < Cube(q * 0x1_0000_0000 + k + 1)
  }

  ghost predicate HasCubeRoot(k: u32, p: nat) { exists q: nat :: IsCubeRoot(q, k, p) }

  ghost predicate AreCubeRoots(ks: seq<u32>, ps: seq<nat>) {
    |ks| == |ps| && forall t :: 0 <= t < |ks| ==> HasCubeRoot(ks[t], ps[t])
  }

  lemma RootsConcat(ks: seq<u32>, ps: seq<nat>, ls: seq<u32>, qs: seq<nat>)
    requires AreCubeRoots(ks, ps) && AreCubeRoots(ls, qs)
    ensures AreCubeRoots(ks + ls, ps + qs)
  {
  }

  lemma RootsOf0()
    ensures AreCubeRoots(K0, PRIMES0)
  {
    assert IsCubeRoot(1, 0x428a2f98, 2);
    assert IsCubeRoot(1, 0x71374491, 3);
    assert IsCubeRoot(1, 0xb5c0fbcf, 5);
    assert IsCubeRoot(1, 0xe9b5dba5, 7);
    assert IsCubeRoot(2, 0x3956c25b, 11);
    assert IsCubeRoot(2, 0x59f111f1, 13);
    assert IsCubeRoot(2, 0x923f82a4, 17);
    assert IsCubeRoot(2, 0xab1c5ed5, 19);
  }

  lemma RootsOf1()
    ensures AreCubeRoots(K1, PRIMES1)
  {
    assert IsCubeRoot(2, 0xd807aa98, 23);
    assert IsCubeRoot(3, 0x12835b01, 29);
    assert IsCubeRoot(3, 0x243185be, 31);
    assert IsCubeRoot(3, 0x550c7dc3, 37);
    assert IsCubeRoot(3, 0x72be5d74, 41);
    assert IsCubeRoot(3, 0x80deb1fe, 43);
    assert IsCubeRoot(3, 0x9bdc06a7, 47);
    assert IsCubeRoot(3, 0xc19bf174, 53);
  }

  lemma RootsOf2()
    ensures AreCubeRoots(K2, PRIMES2)
  {
    assert IsCubeRoot(3, 0xe49b69c1, 59);
    assert IsCubeRoot(3, 0xefbe4786, 61);
    assert IsCubeRoot(4, 0x0fc19dc6, 67);
    assert IsCubeRoot(4, 0x240ca1cc, 71);
    assert IsCubeRoot(4, 0x2de92c6f, 73);
    assert IsCubeRoot(4, 0x4a7484aa, 79);
    assert IsCubeRoot(4, 0x5cb0a9dc, 83);
    assert IsCubeRoot(4, 0x76f988da, 89);
  }

  lemma RootsOf3()
    ensures AreCubeRoots(K3, PRIMES3)
  {
    assert IsCubeRoot(4, 0x983e5152, 97);
    assert IsCubeRoot(4, 0xa831c66d, 101);
    assert IsCubeRoot(4, 0xb00327c8, 103);
    assert IsCubeRoot(4, 0xbf597fc7, 107);
    assert IsCubeRoot(4, 0xc6e00bf3, 109);
    assert IsCubeRoot(4, 0xd5a79147, 113);
    assert IsCubeRoot(5, 0x06ca6351, 127);
    assert IsCubeRoot(5, 0x14292967, 131);
  }

  lemma RootsOf4()
    ensures AreCubeRoots(K4, PRIMES4)
  {
    assert IsCubeRoot(5, 0x27b70a85, 137);
    assert IsCubeRoot(5, 0x2e1b2138, 139);
    assert IsCubeRoot(5, 0x4d2c6dfc, 149);
    assert IsCubeRoot(5, 0x53380d13, 151);
    assert IsCubeRoot(5, 0x650a7354, 157);
    assert IsCubeRoot(5, 0x766a0abb, 163);
    assert IsCubeRoot(5, 0x81c2c92e, 167);
    assert IsCubeRoot(5, 0x92722c85, 173);
  }

  lemma RootsOf5()
    ensures AreCubeRoots(K5, PRIMES5)
  {
    assert IsCubeRoot(5, 0xa2bfe8a1, 179);
    assert IsCubeRoot(5, 0xa81a664b, 181);
    assert IsCubeRoot(5, 0xc24b8b70, 191);
    assert IsCubeRoot(5, 0xc76c51a3, 193);
    assert IsCubeRoot(5, 0xd192e819, 197);
    assert IsCubeRoot(5, 0xd6990624, 199);
    assert IsCubeRoot(5, 0xf40e3585, 211);
    assert IsCubeRoot(6, 0x106aa070, 223);
  }

  lemma RootsOf6()
    ensures AreCubeRoots(K6, PRIMES6)
  {
    assert IsCubeRoot(6, 0x19a4c116, 227);
    assert IsCubeRoot(6, 0x1e376c08, 229);
    assert IsCubeRoot(6, 0x2748774c, 233);
    assert IsCubeRoot(6, 0x34b0bcb5, 239);
    assert IsCubeRoot(6, 0x391c0cb3, 241);
    assert IsCubeRoot(6, 0x4ed8aa4a, 251);
    assert IsCubeRoot(6, 0x5b9cca4f, 257);
    assert IsCubeRoot(6, 0x682e6ff3, 263);
  }

  lemma RootsOf7()
    ensures AreCubeRoots(K7, PRIMES7)
  {
    assert IsCubeRoot(6, 0x748f82ee, 269);
    assert IsCubeRoot(6, 0x78a5636f, 271);
    assert IsCubeRoot(6, 0x84c87814, 277);
    assert IsCubeRoot(6, 0x8cc70208, 281);
    assert IsCubeRoot(6, 0x90befffa, 283);
    assert IsCubeRoot(6, 0xa4506ceb, 293);
    assert IsCubeRoot(6, 0xbef9a3f7, 307);
    assert IsCubeRoot(6, 0xc67178f2, 311);
  }

  // Section 4.2.2: word t of K is the first 32 bits of the fractional part of the cube root of prime
  // number t, counting from zero.
  lemma KIsCubeRoots()
    ensures |K| == |PRIMES| == 64 && FirstPrimes(PRIMES) && AreCubeRoots(K, PRIMES)
  {
    RootsOf0(); RootsOf1(); RootsOf2(); RootsOf3(); RootsOf4(); RootsOf5(); RootsOf6(); RootsOf7();
    RootsConcat(K0, PRIMES0, K1, PRIMES1);
    RootsConcat(K0 + K1, PRIMES0 + PRIMES1, K2, PRIMES2);
    RootsConcat(K0 + K1 + K2, PRIMES0 + PRIMES1 + PRIMES2, K3, PRIMES3);
    RootsConcat(K0 + K1 + K2 + K3, PRIMES0 + PRIMES1 + PRIMES2 + PRIMES3, K4, PRIMES4);
    RootsConcat(K0 + K1 + K2 + K3 + K4, PRIMES0 + PRIMES1 + PRIMES2 + PRIMES3 + PRIMES4, K5, PRIMES5);
    RootsConcat(K0 + K1 + K2 + K3 + K4 + K5, PRIMES0 + PRIMES1 + PRIMES2 + PRIMES3 + PRIMES4 + PRIMES5, K6, PRIMES6);
    RootsConcat(K0 + K1 + K2 + K3 + K4 + K5 + K6,
                PRIMES0 + PRIMES1 + PRIMES2 + PRIMES3 + PRIMES4 + PRIMES5 + PRIMES6, K7, PRIMES7);
    PrimesAreFirst();
  }

  function Square(x: nat): nat { x * x }

  // h is the first 32 bits of the fractional part of the square root of p, whose whole part is q.
  predicate IsSquareRoot(q: nat, h: u32, p: nat) {
    Square(q * 0x1_0000_0000 + h) <= p * 0x1_0000_0000_0000_0000 < Square(q * 0x1_0000_0000 + h + 1)
  }

  ghost predicate HasSquareRoot(h: u32, p: nat) { exists q: nat :: IsSquareRoot(q, h, p) }

  // Section 5.3.3: the initial hash value, likewise of the square roots of the first eight primes.
  lemma InitialIsSquareRoots()
    ensures PRIMES0 <= PRIMES && PRIMES0 == [2, 3, 5, 7, 11, 13, 17, 19]
    ensures HasSquareRoot(H0.a, PRIMES0[0]) && HasSquareRoot(H0.b, PRIMES0[1]) && HasSquareRoot(H0.c, PRIMES0[2])
    ensures HasSquareRoot(H0.d, PRIMES0[3]) && HasSquareRoot(H0.e, PRIMES0[4]) && HasSquareRoot(H0.f, PRIMES0[5])
    ensures HasSquareRoot(H0.g, PRIMES0[6]) && HasSquareRoot(H0.h, PRIMES0[7])
  {
    assert IsSquareRoot(1, 0x6a09e667, 2);
    assert IsSquareRoot(1, 0xbb67ae85, 3);
    assert IsSquareRoot(2, 0x3c6ef372, 5);
    assert IsSquareRoot(2, 0xa54ff53a, 7);
    assert IsSquareRoot(3, 0x510e527f, 11);
    assert IsSquareRoot(3, 0x9b05688c, 13);
    assert IsSquareRoot(4, 0x1f83d9ab, 17);
    assert IsSquareRoot(4, 0x5be0cd19, 19);
  }
}
